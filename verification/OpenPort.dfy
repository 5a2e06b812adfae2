/**
 mxser_open, mxser_close and mxser_hangup as they update the port in place.  What a call does from one
 place where it sleeps to the next is one event of the machine in PortCount, and where it sleeps the
 calls of other handles and hangups may go on by any number of steps.
 */
module OpenPort {
  import opened PortCount

  class Port {
    var count: int
    var blockedOpen: int
    var initialized: bool
    var closing: bool
    var xmitBuf: bool
    var clamps: nat
    var handles: map<Id, Handle>    // the tty core's files; their number is tty->count
    var pages: int                  // transmit pages allocated and not freed

    function AsState(): State
      reads this
    {
      State(handles, count, blockedOpen, initialized, closing, xmitBuf, pages, clamps)
    }

    ghost predicate Valid()
      reads this
    {
      CountInv(AsState())
    }

    constructor ()
      ensures Valid() && AsState() == Start
    {
      count, blockedOpen, initialized, closing, xmitBuf, clamps := 0, 0, false, false, false, 0;
      handles, pages := map[], 0;
      new;
      StartCounts();
    }

    method SetPc(h: Id, pc: Pc)
      requires h in handles
      modifies this`handles
      ensures AsState() == Goto(old(AsState()), h, pc)
    {
      handles := handles[h := handles[h].(pc := pc)];
    }

    /** mxser_open up to its allocation. */
    method EnterOpen(h: Id)
      requires Valid() && Enabled(AsState(), Enter(h))
      modifies this
      ensures AsState() == Next(old(AsState()), Enter(h)) && Valid()
      ensures count == old(count) + 1 && handles == old(handles)[h := Handle(Allocating, false)]
    {
      StepCounts(AsState(), Enter(h));
      handles := handles[h := Handle(Allocating, false)];
      count := count + 1;
    }

    /** mxser_startup from its allocation on: the page it brought is the port's or is freed again. */
    method StartPort(g: Ground) returns (ok: bool)
      requires Valid()
      modifies this
      ensures AsState() == Startup(old(AsState()), g) && ok == StartupOk(old(AsState()), g) && Valid()
      ensures handles == old(handles) && count == old(count)
      ensures ok <==> g.page && (old(initialized) || !g.typed || !g.lsrDead || g.admin)
      ensures initialized <==> old(initialized) || (g.page && g.typed && !g.lsrDead)
      ensures xmitBuf <==> old(xmitBuf) || (g.page && g.typed && !old(initialized))
      ensures pages == if xmitBuf then 1 else 0
    {
      if !g.page {
        return false;
      }
      pages := pages + 1;
      if initialized {
        pages := pages - 1;
        return true;
      }
      if !g.typed {
        pages := pages - 1;
        return true;
      }
      if xmitBuf {
        pages := pages - 1;
      } else {
        xmitBuf := true;
      }
      if g.lsrDead {
        return g.admin;
      }
      initialized := true;
      return true;
    }

    /** mxser_block_til_ready up to its loop. */
    method JoinWaiting(h: Id)
      requires Valid() && At(AsState(), h, Allocating)
      modifies this
      ensures AsState() == JoinWait(old(AsState()), h) && Valid()
      ensures blockedOpen == old(blockedOpen) + 1 && count == old(count) - if handles[h].hung then 0 else 1
    {
      JoinWaitCounts(AsState(), h);
      if !handles[h].hung {
        count := count - 1;
      }
      blockedOpen := blockedOpen + 1;
      SetPc(h, Blocked);
    }

    /** One turn of its loop and, if that leaves it, the end. */
    method TakeTurn(h: Id, look: Look) returns (left: bool, ok: bool)
      requires Valid() && At(AsState(), h, Blocked)
      modifies this
      ensures AsState() == Turn(old(AsState()), h, look) && Valid()
      ensures ok == (!old(handles[h].hung) && old(initialized) && !old(closing) && look.carrier)
      ensures left == (ok || old(handles[h].hung) || !old(initialized) || look.pending)
      ensures if left then handles == old(handles)[h := old(handles[h]).(pc := if ok then Opened(true) else Failed)]
              else AsState() == old(AsState())
      ensures initialized == old(initialized) && closing == old(closing)
    {
      TurnCounts(AsState(), h, look);
      ok := false;
      if handles[h].hung || !initialized {
        ok := false;
      } else if !closing && look.carrier {
        ok := true;
      } else if !look.pending {
        return false, false;
      }
      if !handles[h].hung {
        count := count + 1;
      }
      blockedOpen := blockedOpen - 1;
      SetPc(h, if ok then Opened(true) else Failed);
      return true, ok;
    }

    method ShutdownPort()
      requires Valid()
      modifies this`pages, this`xmitBuf, this`initialized
      ensures AsState() == Shutdown(old(AsState())) && Valid()
      ensures !initialized && (old(initialized) ==> pages == 0)
    {
      if !initialized {
        return;
      }
      if xmitBuf {
        pages := pages - 1;
        xmitBuf := false;
      }
      initialized := false;
    }

    /** The decrement in mxser_close, with its two corrections. */
    method DropCount(ttyCount: nat)
      modifies this`count, this`clamps
      ensures var n := if ttyCount == 1 then 0 else old(count) - 1;
        && count == (if n < 0 then 0 else n)
        && clamps == old(clamps) + (if ttyCount == 1 && old(count) != 1 then 1 else 0) + (if n < 0 then 1 else 0)
    {
      if ttyCount == 1 && count != 1 {
        clamps := clamps + 1;
        count := 1;
      }
      count := count - 1;
      if count < 0 {
        clamps := clamps + 1;
        count := 0;
      }
    }

    /** mxser_close up to the drain; the count it leaves is never one that it had to correct. */
    method CloseStart(h: Id)
      requires Valid() && Enabled(AsState(), Close(h))
      modifies this
      ensures AsState() == Next(old(AsState()), Close(h)) && Valid()
      ensures clamps == old(clamps) && count == if old(handles[h].hung) then old(count) else old(count) - 1
      ensures h in handles <==> !old(handles[h].hung) && count == 0
      ensures closing <==> old(closing) || h in handles
    {
      StepCounts(AsState(), Close(h));
      CloseCounts(AsState(), h);
      if handles[h].hung {
        handles := handles - {h};
        return;
      }
      CloserIsCounted(AsState(), h);
      DropCount(|handles|);
      if count != 0 {
        handles := handles - {h};
        return;
      }
      closing := true;
      SetPc(h, Closing);
    }

    /** mxser_close after the drain, up to the close delay if an open waits. */
    method CloseFinish(h: Id)
      requires Valid() && Enabled(AsState(), CloseEnd(h))
      modifies this
      ensures AsState() == Next(old(AsState()), CloseEnd(h)) && Valid()
      ensures !initialized && count == old(count) && (h in handles <==> blockedOpen != 0)
      ensures closing <==> old(closing) && h in handles
    {
      StepCounts(AsState(), CloseEnd(h));
      ShutdownPort();
      if blockedOpen != 0 {
        SetPc(h, Parting);
        return;
      }
      closing := false;
      handles := handles - {h};
    }

    /** The end of mxser_close after the close delay. */
    method Part(h: Id)
      requires Valid() && Enabled(AsState(), PartEnd(h))
      modifies this
      ensures AsState() == Next(old(AsState()), PartEnd(h)) && Valid()
      ensures !closing && handles == old(handles) - {h}
    {
      StepCounts(AsState(), PartEnd(h));
      closing := false;
      handles := handles - {h};
    }

    /** tty_hangup: the core marks every file, then calls mxser_hangup. */
    method HangupAll()
      requires Valid()
      modifies this
      ensures AsState() == Next(old(AsState()), Hangup) && Valid()
      ensures count == 0 && !initialized && forall h :: h in handles ==> handles[h].hung
    {
      StepCounts(AsState(), Hangup);
      ShutdownPort();
      handles := AllHung(handles);
      count := 0;
    }

    // ----- whole calls ---------------------------------------------------------------------

    /** mxser_open from its allocation to its end or its first sleep. */
    method ProceedOpen(h: Id, g: Ground, straight: bool, look: Look)
      requires Valid() && Enabled(AsState(), Proceed(h, g, straight, look))
      modifies this
      ensures AsState() == Next(old(AsState()), Proceed(h, g, straight, look)) && Valid()
    {
      ProceedCounts(AsState(), h, g, straight, look);
      var ok := StartPort(g);
      if !ok {
        SetPc(h, Failed);
      } else if straight {
        SetPc(h, Opened(initialized));
      } else {
        JoinWaiting(h);
        var left, opens := TakeTurn(h, look);
      }
    }

    /** One step of anybody's. */
    method Perform(e: Event)
      requires Valid() && Enabled(AsState(), e)
      modifies this
      ensures AsState() == Next(old(AsState()), e) && Valid()
    {
      match e {
        case Enter(h) => EnterOpen(h);
        case Proceed(h, g, straight, look) => ProceedOpen(h, g, straight, look);
        case Wake(h, look) => var left, ok := TakeTurn(h, look);
        case Close(h) => CloseStart(h);
        case CloseEnd(h) => CloseFinish(h);
        case PartEnd(h) => Part(h);
        case Hangup => HangupAll();
      }
    }

    /** Sleeping, while the others take these steps as far as they can; a hangup may mark this handle too. */
    method Meanwhile(h: Id, es: seq<Event>)
      requires Valid() && h in handles
      modifies this
      ensures Valid() && AsState() == After(old(AsState()), h, es) && Led(old(AsState()), AsState())
      ensures h in handles && handles[h].pc == old(handles[h].pc) && (old(handles[h].hung) ==> handles[h].hung)
    {
      LedStill(AsState());
      var n := 0;
      while n < |es|
        invariant n <= |es| && Valid() && Led(old(AsState()), AsState())
        invariant h in handles && After(AsState(), h, es[n..]) == After(old(AsState()), h, es)
        invariant handles[h].pc == old(handles[h].pc) && (old(handles[h].hung) ==> handles[h].hung)
      {
        var e := es[n];
        assert es[n..][0] == e && es[n..][1..] == es[n + 1..];
        if Enabled(AsState(), e) && !Of(e, h) {
          OtherStep(AsState(), e, h);
          LedStep(old(AsState()), AsState(), e);
          Perform(e);
        }
        n := n + 1;
      }
    }

    /**
     mxser_block_til_ready where it waits: for the carrier, a hangup, the port's end or a signal.  The
     section that led here began in `before`.
     */
    method WaitTilReady(h: Id, ghost before: State, g: Ground, m: Meets) returns (ok: bool)
      requires Valid() && At(AsState(), h, Allocating)
      requires At(before, h, Allocating) && StartupOk(before, g) && AsState() == Startup(before, g)
      modifies this
      ensures Valid() && Led(before, AsState())
      ensures (AsState(), ok) == Waited(JoinWait(Startup(before, g), h), h, m, 0)
      ensures h in handles && if ok then handles[h].pc == Opened(true) else handles[h].pc == Failed
      ensures ok ==> initialized && !closing && !handles[h].hung
    {
      JoinWaiting(h);
      ghost var first := AsState();
      var k := 0;
      while true
        invariant Valid() && At(AsState(), h, Blocked) && 0 <= k <= m.patience
        invariant Waited(AsState(), h, m, k) == Waited(first, h, m, 0)
        invariant if k == 0 then AsState() == first else Led(before, AsState())
        decreases m.patience - k
      {
        LedTurn(before, g, h, AsState(), k == 0, LookAt(m, k));
        var left;
        left, ok := TakeTurn(h, LookAt(m, k));
        if left {
          return;
        }
        ghost var s := AsState();
        Meanwhile(h, m.others(k + 1));
        LedOn(before, s, AsState());
        k := k + 1;
      }
    }

    /** mxser_open from its page on. */
    method FinishOpen(h: Id, straight: bool, g: Ground, m: Meets) returns (ok: bool)
      requires Valid() && At(AsState(), h, Allocating)
      modifies this
      ensures Valid() && Led(old(AsState()), AsState())
      ensures !StartupOk(old(AsState()), g) ==> !ok && AsState() == Goto(Startup(old(AsState()), g), h, Failed)
      ensures StartupOk(old(AsState()), g) && straight ==>
                ok && AsState() == Goto(Startup(old(AsState()), g), h, Opened(initialized))
      ensures StartupOk(old(AsState()), g) && !straight ==>
                (AsState(), ok) == Waited(JoinWait(Startup(old(AsState()), g), h), h, m, 0)
      ensures h in handles && if ok then handles[h].pc == Opened(initialized) else handles[h].pc == Failed
      ensures ok && !straight ==> initialized && !closing && !handles[h].hung
    {
      LedStill(AsState());
      LedStep(AsState(), AsState(), Proceed(h, g, true, Look(false, false)));
      ProceedCounts(AsState(), h, g, true, Look(false, false));
      ok := StartPort(g);
      if !ok {
        SetPc(h, Failed);
      } else if straight {
        SetPc(h, Opened(initialized));
      } else {
        ok := WaitTilReady(h, old(AsState()), g, m);
      }
    }

    /**
     mxser_open, with what it meets as arguments.  It gets its page, or not, in `before`, and turn k of
     its waiting loop finds the port in seen[k].  Failed or not, the handle is one that the core will
     close, and while it is not hung up it counts.  An open that had to look for a carrier succeeds on
     an initialised port only, not hung up, and with no close holding the port.
     */
    method MxserOpen(h: Id, straight: bool, g: Ground, m: Meets)
        returns (ok: bool, ghost before: State, ghost seen: seq<State>)
      requires Valid() && h !in handles
      modifies this
      ensures Valid() && Led(old(AsState()), AsState())
      ensures before == After(Next(old(AsState()), Enter(h)), h, m.others(0)) && At(before, h, Allocating)
      ensures !StartupOk(before, g) ==> !ok && AsState() == Goto(Startup(before, g), h, Failed)
      ensures StartupOk(before, g) && straight ==>
                ok && AsState() == Goto(Startup(before, g), h, Opened(initialized))
      ensures StartupOk(before, g) && !straight ==>
                Turns(seen, JoinWait(Startup(before, g), h), h, m, 0) && Ended(seen, h, m, 0, AsState(), ok)
      ensures h in handles && if ok then handles[h].pc == Opened(initialized) else handles[h].pc == Failed
      ensures !handles[h].hung ==> count >= 1
      ensures ok && !straight ==> initialized && !closing && !handles[h].hung
    {
      LedStill(AsState());
      LedStep(AsState(), AsState(), Enter(h));
      EnterOpen(h);
      ghost var s := AsState();
      Meanwhile(h, m.others(0));
      LedOn(old(AsState()), s, AsState());
      before, seen := AsState(), [];
      ok := FinishOpen(h, straight, g, m);
      LedOn(old(AsState()), before, AsState());
      if StartupOk(before, g) && !straight {
        seen := WaitIsTurns(JoinWait(Startup(before, g), h), h, m, 0);
      }
      if !handles[h].hung {
        CloserIsCounted(AsState(), h);
      }
    }

    /**
     mxser_close; the others take the steps `drain` and `delay` where it sleeps.  The handle is gone.
     If it was not hung up and the last that counted, the port was shut down on the way, in the state
     done; without a close delay nothing follows that, so when no handle is left the port is shut down.
     */
    method MxserClose(h: Id, closeDelay: nat, drain: seq<Event>, delay: seq<Event>)
        returns (last: bool, ghost done: State)
      requires Valid() && Enabled(AsState(), Close(h))
      modifies this
      ensures Valid() && Led(old(AsState()), AsState()) && h !in handles
      ensures last <==> !old(handles[h].hung) && old(count) == 1
      ensures !last ==> AsState() == DoClose(old(AsState()), h)
      ensures last ==> At(DoClose(old(AsState()), h), h, Closing)
      ensures last ==> At(After(DoClose(old(AsState()), h), h, drain), h, Closing)
                       && done == DoCloseEnd(After(DoClose(old(AsState()), h), h, drain), h)
      ensures last ==> AsState() == Parted(done, h, closeDelay, delay)
      ensures last ==> Led(old(AsState()), done) && !done.initialized && Led(done, AsState())
      ensures !old(handles[h].hung) && closeDelay == 0 && handles == map[] ==> !initialized
    {
      LedStill(AsState());
      LedStep(AsState(), AsState(), Close(h));
      if !handles[h].hung && h !in DoClose(AsState(), h).handles {
        OthersCount(AsState(), h);
      }
      CloseStart(h);
      done := AsState();
      last := h in handles;
      if !last {
        return;
      }
      Meanwhile(h, drain);
      LedOn(old(AsState()), done, AsState());
      LedStep(old(AsState()), AsState(), CloseEnd(h));
      CloseFinish(h);
      done := AsState();
      LedStill(done);
      if h in handles {
        SleepAndPart(h, closeDelay, delay);
        LedOn(old(AsState()), done, AsState());
      }
    }

    /** The close delay and what follows it. */
    method SleepAndPart(h: Id, closeDelay: nat, delay: seq<Event>)
      requires Valid() && At(AsState(), h, Parting) && !initialized
      modifies this
      ensures Valid() && Led(old(AsState()), AsState()) && h !in handles
      ensures AsState() == Parted(old(AsState()), h, closeDelay, delay)
      ensures closeDelay == 0 ==> !initialized
    {
      LedStill(AsState());
      if closeDelay > 0 {
        Meanwhile(h, delay);
      }
      LedStep(old(AsState()), AsState(), PartEnd(h));
      Part(h);
    }
  }

  /** The steps that others take while h sleeps; one that cannot happen there does not. */
  function After(s: State, h: Id, es: seq<Event>): State
    decreases |es|
  {
    if es == [] then s
    else if Enabled(s, es[0]) && !Of(es[0], h) then After(Next(s, es[0]), h, es[1..])
    else After(s, h, es[1..])
  }

  /** Every run of the others is one of these. */
  lemma {:induction false} AfterIsRun(s: State, h: Id, es: seq<Event>, s': State)
    requires Reaches(s, es, s') && forall e :: e in es ==> !Of(e, h)
    ensures After(s, h, es) == s'
    decreases |es|
  {
    if es != [] {
      assert es[0] in es;
      assert forall e :: e in es[1..] ==> e in es;
      AfterIsRun(Next(s, es[0]), h, es[1..], s');
    }
  }

  /** The end of mxser_close: the close delay, if an open made it wait for that. */
  function Parted(s: State, h: Id, closeDelay: nat, delay: seq<Event>): State {
    if h !in s.handles then s
    else Gone((if closeDelay > 0 then After(s, h, delay) else s).(closing := false), h)
  }

  /**
   What an open meets: the steps that others take while it sleeps for its page, others(0), and after
   turn k of the waiting loop, others(k + 1); the carrier that turn k finds; and the turn at which a
   signal is pending.
   */
  datatype Meets = Meets(carriers: nat -> bool, patience: nat, others: nat -> seq<Event>)

  function LookAt(m: Meets, k: nat): Look {
    Look(m.carriers(k), k == m.patience)
  }

  /** What ends the waiting loop. */
  predicate Ends(s: State, h: Id, look: Look) {
    h in s.handles && (s.handles[h].hung || !s.initialized || (look.carrier && !s.closing) || look.pending)
  }

  /** The waiting loop from turn k on: where it leads, and whether it opens. */
  function Waited(s: State, h: Id, m: Meets, k: nat): (State, bool)
    requires h in s.handles && k <= m.patience
    decreases m.patience - k
  {
    if Ends(s, h, LookAt(m, k)) then (Turn(s, h, LookAt(m, k)), Opens(s, h, m.carriers(k)))
    else
      AfterKeeps(s, h, m.others(k + 1));
      Waited(After(s, h, m.others(k + 1)), h, m, k + 1)
  }

  predicate Opens(s: State, h: Id, carrier: bool) {
    h in s.handles && !s.handles[h].hung && s.initialized && !s.closing && carrier
  }

  lemma {:induction false} AfterKeeps(s: State, h: Id, es: seq<Event>)
    requires h in s.handles
    ensures h in After(s, h, es).handles && After(s, h, es).handles[h].pc == s.handles[h].pc
    decreases |es|
  {
    if es != [] {
      if Enabled(s, es[0]) && !Of(es[0], h) {
        OtherStep(s, es[0], h);
        AfterKeeps(Next(s, es[0]), h, es[1..]);
      } else {
        AfterKeeps(s, h, es[1..]);
      }
    }
  }

  /** What turns k and later find: all but the last make the open sleep again, while the others go on. */
  ghost predicate Turns(seen: seq<State>, first: State, h: Id, m: Meets, k: nat) {
    && seen != [] && seen[0] == first
    && forall i :: 0 <= i < |seen| - 1 ==>
         !Ends(seen[i], h, LookAt(m, k + i)) && seen[i + 1] == After(seen[i], h, m.others(k + i + 1))
  }

  /** The last turn ends the loop, in s', with success just if it finds a carrier and nothing against it. */
  ghost predicate Ended(seen: seq<State>, h: Id, m: Meets, k: nat, s': State, ok: bool) {
    && seen != []
    && var i := |seen| - 1; var s := seen[i];
       && Ends(s, h, LookAt(m, k + i)) && s' == Turn(s, h, LookAt(m, k + i))
       && ok == (!s.handles[h].hung && s.initialized && !s.closing && m.carriers(k + i))
  }

  lemma {:induction false} WaitIsTurns(s: State, h: Id, m: Meets, k: nat) returns (seen: seq<State>)
    requires h in s.handles && k <= m.patience
    ensures Turns(seen, s, h, m, k) && Ended(seen, h, m, k, Waited(s, h, m, k).0, Waited(s, h, m, k).1)
    decreases m.patience - k
  {
    if Ends(s, h, LookAt(m, k)) {
      seen := [s];
    } else {
      AfterKeeps(s, h, m.others(k + 1));
      var rest := WaitIsTurns(After(s, h, m.others(k + 1)), h, m, k + 1);
      seen := [s] + rest;
      TurnsBefore(rest, s, h, m, k);
    }
  }

  lemma TurnsBefore(rest: seq<State>, s: State, h: Id, m: Meets, k: nat)
    requires Turns(rest, After(s, h, m.others(k + 1)), h, m, k + 1) && !Ends(s, h, LookAt(m, k))
    ensures Turns([s] + rest, s, h, m, k)
  {
    var seen := [s] + rest;
    forall i | 0 <= i < |seen| - 1
      ensures !Ends(seen[i], h, LookAt(m, k + i)) && seen[i + 1] == After(seen[i], h, m.others(k + i + 1))
    {
      if i > 0 {
        assert seen[i] == rest[i - 1] && seen[i + 1] == rest[i];
        assert k + 1 + (i - 1) == k + i;
      }
    }
  }

  // ----- runs ------------------------------------------------------------------------------

  /** A run of the machine leads from s to s'. */
  ghost predicate Led(s: State, s': State) {
    exists es :: Reaches(s, es, s')
  }

  lemma LedStill(s: State)
    ensures Led(s, s)
  {
    assert Reaches(s, [], s);
  }

  lemma {:induction false} LedRun(s: State, es: seq<Event>, m: State, fs: seq<Event>, s': State)
    requires Reaches(s, es, m) && Reaches(m, fs, s')
    ensures Reaches(s, es + fs, s')
    decreases |es|
  {
    if es == [] {
      assert es + fs == fs;
    } else {
      LedRun(Next(s, es[0]), es[1..], m, fs, s');
      assert (es + fs)[0] == es[0] && (es + fs)[1..] == es[1..] + fs;
    }
  }

  lemma LedOn(s: State, m: State, s': State)
    requires Led(s, m) && Led(m, s')
    ensures Led(s, s')
  {
    var es :| Reaches(s, es, m);
    var fs :| Reaches(m, fs, s');
    LedRun(s, es, m, fs, s');
  }

  lemma LedStep(s: State, m: State, e: Event)
    requires Led(s, m) && Enabled(m, e)
    ensures Led(s, Next(m, e))
  {
    assert [e][1..] == [];
    assert Reaches(m, [e], Next(m, e));
    LedOn(s, m, Next(m, e));
  }

  /** A turn of the waiting loop: the first ends the section that began before, each other is one. */
  lemma LedTurn(before: State, g: Ground, h: Id, s: State, first: bool, look: Look)
    requires At(before, h, Allocating) && StartupOk(before, g) && At(s, h, Blocked)
    requires if first then s == JoinWait(Startup(before, g), h) else Led(before, s)
    ensures Led(before, Turn(s, h, look))
  {
    if first {
      LedStill(before);
      LedStep(before, before, Proceed(h, g, false, look));
    } else {
      LedStep(before, s, Wake(h, look));
    }
  }

  /** The step is one of this handle's. */
  predicate Of(e: Event, h: Id) {
    !e.Hangup? && e.h == h
  }

  lemma OtherStep(s: State, e: Event, h: Id)
    requires Enabled(s, e) && !Of(e, h) && h in s.handles
    ensures var s' := Next(s, e);
      h in s'.handles && s'.handles[h].pc == s.handles[h].pc && (s.handles[h].hung ==> s'.handles[h].hung)
  {
    if e.Enter? || e.Proceed? || e.Wake? {
      Moved(s, e);
    }
  }

  lemma CloserIsCounted(s: State, h: Id)
    requires CountInv(s) && Enabled(s, Close(h)) && !s.handles[h].hung
    ensures s.count >= 1 && (|s.handles| == 1 ==> s.count == 1)
  {
    CloserCounts(s.handles, h);
  }
}
