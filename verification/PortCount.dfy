/**
 Who has an mxser port open, and what the port keeps for them: info->count, info->blocked_open,
 ASYNC_INITIALIZED, ASYNC_CLOSING and the transmit page, over every interleaving of open, close and
 hangup.

 A handle is one struct file.  Open, close and hangup are taken to exclude each other, but for the
 places where they sleep: the allocation in mxser_startup, the wait in mxser_block_til_ready, and in
 mxser_close the drain and the close delay.  So an event is what one call does from one such place to
 the next.  tty->count, which the tty core keeps, is the number of handles.
 */
module PortCount {

  type Id = int

  datatype Pc =
    | Allocating             // in mxser_open, waiting for the transmit page
    | Blocked                // in mxser_block_til_ready, waiting
    | Opened(up: bool)       // mxser_open returned 0; up: the port was initialised then
    | Failed                 // mxser_open returned an error; of both the core will call close
    | Closing                // the last close, waiting for the line to drain
    | Parting                // the last close, waiting for the close delay

  datatype Handle = Handle(pc: Pc, hung: bool)

  /** pages: transmit pages allocated and not freed.  clamps: how often a "bad serial port count" was seen. */
  datatype State = State(handles: map<Id, Handle>, count: int, blockedOpen: int, initialized: bool, closing: bool,
                         xmitBuf: bool, pages: int, clamps: nat)

  /** What mxser_startup meets: whether it gets a page, the port has a type, LSR reads 0xff, the caller is an admin. */
  datatype Ground = Ground(page: bool, typed: bool, lsrDead: bool, admin: bool)

  /** What a turn of the waiting loop meets: CLOCAL or a carrier, and a pending signal. */
  datatype Look = Look(carrier: bool, pending: bool)

  datatype Event =
    | Enter(h: Id)
    | Proceed(h: Id, g: Ground, straight: bool, look: Look)   // straight: O_NONBLOCK or TTY_IO_ERROR
    | Wake(h: Id, look: Look)
    | Close(h: Id)
    | CloseEnd(h: Id)
    | PartEnd(h: Id)
    | Hangup

  predicate At(s: State, h: Id, pc: Pc) {
    h in s.handles && s.handles[h].pc == pc
  }

  predicate Enabled(s: State, e: Event) {
    match e
    case Enter(h) => h !in s.handles
    case Proceed(h, _, _, _) => At(s, h, Allocating)
    case Wake(h, _) => At(s, h, Blocked)
    case Close(h) => h in s.handles && (s.handles[h].pc.Opened? || s.handles[h].pc.Failed?)
    case CloseEnd(h) => At(s, h, Closing)
    case PartEnd(h) => At(s, h, Parting)
    case Hangup => true
  }

  function Goto(s: State, h: Id, pc: Pc): State
    requires h in s.handles
  {
    s.(handles := s.handles[h := s.handles[h].(pc := pc)])
  }

  function Gone(s: State, h: Id): State {
    s.(handles := s.handles - {h})
  }

  /** mxser_startup: the port afterwards, and below whether it returns 0. */
  function Startup(s: State, g: Ground): State {
    if !g.page || s.initialized || !g.typed then s
    else
      var s1 := if s.xmitBuf then s else s.(xmitBuf := true, pages := s.pages + 1);
      s1.(initialized := !g.lsrDead)
  }

  predicate StartupOk(s: State, g: Ground) {
    g.page && (s.initialized || !g.typed || !g.lsrDead || g.admin)
  }

  /** mxser_shutdown */
  function Shutdown(s: State): State {
    if !s.initialized then s
    else s.(initialized := false, xmitBuf := false, pages := if s.xmitBuf then s.pages - 1 else s.pages)
  }

  /** mxser_block_til_ready up to its loop. */
  function JoinWait(s: State, h: Id): State
    requires h in s.handles
  {
    Goto(s.(count := if s.handles[h].hung then s.count else s.count - 1, blockedOpen := s.blockedOpen + 1), h, Blocked)
  }

  /** The end of mxser_block_til_ready. */
  function LeaveWait(s: State, h: Id, pc: Pc): State
    requires h in s.handles
  {
    Goto(s.(count := if s.handles[h].hung then s.count else s.count + 1, blockedOpen := s.blockedOpen - 1), h, pc)
  }

  /** One turn of its loop, and the end if it leaves. */
  function Turn(s: State, h: Id, look: Look): State
    requires h in s.handles
  {
    if s.handles[h].hung || !s.initialized then LeaveWait(s, h, Failed)
    else if !s.closing && look.carrier then LeaveWait(s, h, Opened(true))
    else if look.pending then LeaveWait(s, h, Failed)
    else s
  }

  /** mxser_open from the allocation on, up to its end or its first sleep in the loop. */
  function DoProceed(s: State, h: Id, g: Ground, straight: bool, look: Look): State
    requires h in s.handles
  {
    var t := Startup(s, g);
    if !StartupOk(s, g) then Goto(t, h, Failed)
    else if straight then Goto(t, h, Opened(t.initialized))
    else Turn(JoinWait(t, h), h, look)
  }

  /** mxser_close up to the drain. */
  function DoClose(s: State, h: Id): State
    requires h in s.handles
  {
    if s.handles[h].hung then Gone(s, h)
    else
      var bad := |s.handles| == 1 && s.count != 1;
      var n := (if bad then 1 else s.count) - 1;
      var s1 := s.(count := if n < 0 then 0 else n,
                   clamps := s.clamps + (if bad then 1 else 0) + (if n < 0 then 1 else 0));
      if s1.count != 0 then Gone(s1, h) else Goto(s1.(closing := true), h, Closing)
  }

  /** mxser_close after the drain, up to the close delay. */
  function DoCloseEnd(s: State, h: Id): State
    requires h in s.handles
  {
    var t := Shutdown(s);
    if t.blockedOpen != 0 then Goto(t, h, Parting) else Gone(t.(closing := false), h)
  }

  function AllHung(handles: map<Id, Handle>): map<Id, Handle> {
    map h | h in handles :: handles[h].(hung := true)
  }

  function Next(s: State, e: Event): State
    requires Enabled(s, e)
  {
    match e
    case Enter(h) => s.(handles := s.handles[h := Handle(Allocating, false)], count := s.count + 1)
    case Proceed(h, g, straight, look) => DoProceed(s, h, g, straight, look)
    case Wake(h, look) => Turn(s, h, look)
    case Close(h) => DoClose(s, h)
    case CloseEnd(h) => DoCloseEnd(s, h)
    case PartEnd(h) => Gone(s.(closing := false), h)
    case Hangup => Shutdown(s).(handles := AllHung(s.handles), count := 0)
  }

  const Start: State := State(map[], 0, 0, false, false, false, 0, 0)

  ghost predicate Reaches(s: State, es: seq<Event>, s': State)
    decreases |es|
  {
    if es == [] then s' == s else Enabled(s, es[0]) && Reaches(Next(s, es[0]), es[1..], s')
  }

  // ----- counting --------------------------------------------------------------------------

  predicate Counts(x: Handle) {
    !x.hung && (x.pc.Allocating? || x.pc.Opened? || x.pc.Failed?)
  }

  predicate Waits(x: Handle) {
    x.pc.Blocked?
  }

  /** The handles of which something holds. */
  function Those(handles: map<Id, Handle>, p: Handle -> bool): (r: set<Id>) {
    set h | h in handles && p(handles[h])
  }

  lemma ThoseUpdate(handles: map<Id, Handle>, p: Handle -> bool, h: Id, x: Handle)
    ensures |Those(handles[h := x], p)| == |Those(handles, p)| + (if p(x) then 1 else 0)
                                           - if h in handles && p(handles[h]) then 1 else 0
  {
    var rest := Those(handles, p) - {h};
    assert Those(handles[h := x], p) == if p(x) then rest + {h} else rest;
    assert h in Those(handles, p) ==> Those(handles, p) == rest + {h};
    assert h !in Those(handles, p) ==> Those(handles, p) == rest;
  }

  lemma ThoseRemove(handles: map<Id, Handle>, p: Handle -> bool, h: Id)
    ensures |Those(handles - {h}, p)| == |Those(handles, p)| - if h in handles && p(handles[h]) then 1 else 0
  {
    var rest := Those(handles, p) - {h};
    assert Those(handles - {h}, p) == rest;
    assert h in Those(handles, p) ==> Those(handles, p) == rest + {h};
    assert h !in Those(handles, p) ==> Those(handles, p) == rest;
  }

  lemma ThoseHung(handles: map<Id, Handle>, p: Handle -> bool)
    requires forall x: Handle :: p(x.(hung := true)) == p(x)
    ensures Those(AllHung(handles), p) == Those(handles, p)
  {
  }

  /** Of handles hung up, none counts. */
  lemma NoneCounts(handles: map<Id, Handle>)
    ensures Those(AllHung(handles), Counts) == {}
  {
    forall h | h in AllHung(handles)
      ensures !Counts(AllHung(handles)[h])
    {
      assert AllHung(handles)[h].hung;
    }
  }

  ghost predicate CountInv(s: State) {
    && s.count == |Those(s.handles, Counts)|
    && s.blockedOpen == |Those(s.handles, Waits)|
    && s.pages == (if s.xmitBuf then 1 else 0)
    && (s.initialized ==> s.xmitBuf)
    && s.clamps == 0
  }

  lemma StartCounts()
    ensures CountInv(Start)
  {
    assert Those(map[], Counts) == {} && Those(map[], Waits) == {};
  }

  lemma HandleMoves(handles: map<Id, Handle>, h: Id, x: Handle)
    ensures |Those(handles[h := x], Counts)| == |Those(handles, Counts)| + (if Counts(x) then 1 else 0)
                                                - if h in handles && Counts(handles[h]) then 1 else 0
    ensures |Those(handles[h := x], Waits)| == |Those(handles, Waits)| + (if Waits(x) then 1 else 0)
                                               - if h in handles && Waits(handles[h]) then 1 else 0
  {
    ThoseUpdate(handles, Counts, h, x);
    ThoseUpdate(handles, Waits, h, x);
  }

  lemma HandleLeaves(handles: map<Id, Handle>, h: Id)
    requires h in handles
    ensures |Those(handles - {h}, Counts)| == |Those(handles, Counts)| - if Counts(handles[h]) then 1 else 0
    ensures |Those(handles - {h}, Waits)| == |Those(handles, Waits)| - if Waits(handles[h]) then 1 else 0
  {
    ThoseRemove(handles, Counts, h);
    ThoseRemove(handles, Waits, h);
  }

  /** A handle being closed is counted, and if it is the only one it is the whole count. */
  lemma CloserCounts(handles: map<Id, Handle>, h: Id)
    requires h in handles && Counts(handles[h])
    ensures |Those(handles, Counts)| >= 1
    ensures |handles| == 1 ==> |Those(handles, Counts)| == 1
  {
    assert h in Those(handles, Counts);
    if |handles| == 1 {
      assert |handles.Keys| == 1;
      OnlyElement(handles.Keys, h);
      assert Those(handles, Counts) == {h};
    }
  }

  lemma OnlyElement(s: set<Id>, x: Id)
    requires |s| == 1 && x in s
    ensures s == {x}
  {
    assert |s - {x}| == 0;
  }

  lemma GotoCounts(s: State, h: Id, pc: Pc)
    requires CountInv(s) && h in s.handles
    requires Counts(s.handles[h].(pc := pc)) == Counts(s.handles[h]) && pc.Blocked? == s.handles[h].pc.Blocked?
    ensures CountInv(Goto(s, h, pc))
  {
    HandleMoves(s.handles, h, s.handles[h].(pc := pc));
  }

  lemma JoinWaitCounts(s: State, h: Id)
    requires CountInv(s) && At(s, h, Allocating)
    ensures CountInv(JoinWait(s, h))
  {
    HandleMoves(s.handles, h, s.handles[h].(pc := Blocked));
  }

  lemma LeaveWaitCounts(s: State, h: Id, pc: Pc)
    requires CountInv(s) && At(s, h, Blocked) && (pc.Opened? || pc.Failed?)
    ensures CountInv(LeaveWait(s, h, pc))
  {
    HandleMoves(s.handles, h, s.handles[h].(pc := pc));
  }

  lemma TurnCounts(s: State, h: Id, look: Look)
    requires CountInv(s) && At(s, h, Blocked)
    ensures CountInv(Turn(s, h, look))
  {
    LeaveWaitCounts(s, h, Failed);
    LeaveWaitCounts(s, h, Opened(true));
  }

  lemma StartupCounts(s: State, g: Ground)
    requires CountInv(s)
    ensures CountInv(Startup(s, g)) && Startup(s, g).handles == s.handles
  {
  }

  lemma ProceedCounts(s: State, h: Id, g: Ground, straight: bool, look: Look)
    requires CountInv(s) && At(s, h, Allocating)
    ensures CountInv(DoProceed(s, h, g, straight, look))
  {
    StartupCounts(s, g);
    var t := Startup(s, g);
    if !StartupOk(s, g) {
      GotoCounts(t, h, Failed);
    } else if straight {
      GotoCounts(t, h, Opened(t.initialized));
    } else {
      JoinWaitCounts(t, h);
      TurnCounts(JoinWait(t, h), h, look);
    }
  }

  lemma CloseCounts(s: State, h: Id)
    requires CountInv(s) && Enabled(s, Close(h))
    ensures CountInv(DoClose(s, h))
    ensures DoClose(s, h).clamps == s.clamps
  {
    HandleLeaves(s.handles, h);
    HandleMoves(s.handles, h, s.handles[h].(pc := Closing));
    if !s.handles[h].hung {
      CloserCounts(s.handles, h);
    }
  }

  lemma CloseEndCounts(s: State, h: Id)
    requires CountInv(s) && At(s, h, Closing)
    ensures CountInv(DoCloseEnd(s, h))
  {
    HandleLeaves(s.handles, h);
    assert CountInv(Shutdown(s));
    GotoCounts(Shutdown(s), h, Parting);
  }

  lemma HangupCounts(s: State)
    requires CountInv(s)
    ensures CountInv(Next(s, Hangup))
  {
    ThoseHung(s.handles, Waits);
    NoneCounts(s.handles);
  }

  lemma EnterCounts(s: State, h: Id)
    requires CountInv(s) && h !in s.handles
    ensures CountInv(Next(s, Enter(h)))
  {
    HandleMoves(s.handles, h, Handle(Allocating, false));
  }

  lemma PartEndCounts(s: State, h: Id)
    requires CountInv(s) && At(s, h, Parting)
    ensures CountInv(Next(s, PartEnd(h)))
  {
    HandleLeaves(s.handles, h);
  }

  lemma StepCounts(s: State, e: Event)
    requires CountInv(s) && Enabled(s, e)
    ensures CountInv(Next(s, e))
  {
    match e
    case Enter(h) => EnterCounts(s, h);
    case Proceed(h, g, straight, look) => ProceedCounts(s, h, g, straight, look);
    case Wake(h, look) => TurnCounts(s, h, look);
    case Close(h) => CloseCounts(s, h);
    case CloseEnd(h) => CloseEndCounts(s, h);
    case PartEnd(h) => PartEndCounts(s, h);
    case Hangup => HangupCounts(s);
  }

  lemma {:induction false} RunCounts(s: State, es: seq<Event>, s': State)
    requires CountInv(s) && Reaches(s, es, s')
    ensures CountInv(s')
    decreases |es|
  {
    if es != [] {
      StepCounts(s, es[0]);
      RunCounts(Next(s, es[0]), es[1..], s');
    }
  }

  // ----- over every run --------------------------------------------------------------------

  /**
   info->count is the number of handles neither hung up, nor waiting, nor past their close;
   blocked_open is the number that wait; neither correction of a bad count is ever made.
   */
  lemma CountIsLiveHandles(es: seq<Event>, s: State)
    requires Reaches(Start, es, s)
    ensures s.count == |Those(s.handles, Counts)| && s.blockedOpen == |Those(s.handles, Waits)|
    ensures s.count >= 0 && s.clamps == 0
  {
    StartCounts();
    RunCounts(Start, es, s);
  }

  /**
   Pages are never leaked or freed twice: the one that is out, if any, is the port's, and an
   initialised port owns it.
   */
  lemma PageIsThePorts(es: seq<Event>, s: State)
    requires Reaches(Start, es, s)
    ensures s.pages == if s.xmitBuf then 1 else 0
    ensures s.initialized ==> s.xmitBuf
  {
    StartCounts();
    RunCounts(Start, es, s);
  }

  predicate Closes(x: Handle) {
    x.pc.Closing? || x.pc.Parting?
  }

  /** ASYNC_CLOSING is not left behind. */
  ghost predicate FlagInv(s: State) {
    s.closing ==> exists h :: h in s.handles && Closes(s.handles[h])
  }

  lemma StepKeepsFlag(s: State, e: Event)
    requires FlagInv(s) && Enabled(s, e)
    ensures FlagInv(Next(s, e))
  {
    var s' := Next(s, e);
    if e.Enter? || e.Proceed? || e.Wake? {
      Moved(s, e);
    }
    if s'.closing && s.closing {
      var k :| k in s.handles && Closes(s.handles[k]);
      assert k in s'.handles && Closes(s'.handles[k]);
    } else if s'.closing {
      assert e.Close? && Closes(s'.handles[e.h]);
    }
  }

  lemma {:induction false} RunKeepsFlag(s: State, es: seq<Event>, s': State)
    requires FlagInv(s) && Reaches(s, es, s')
    ensures FlagInv(s')
    decreases |es|
  {
    if es != [] {
      StepKeepsFlag(s, es[0]);
      RunKeepsFlag(Next(s, es[0]), es[1..], s');
    }
  }

  /**
   A waiting open is never held up by a close that is over: once no close is under way, a turn of
   its loop that sees a carrier opens, provided it is not hung up and the port is initialised.
   */
  lemma CarrierLetsIn(es: seq<Event>, s: State, h: Id, look: Look)
    requires Reaches(Start, es, s) && Enabled(s, Wake(h, look)) && look.carrier
    requires !exists k :: k in s.handles && Closes(s.handles[k])
    ensures Next(s, Wake(h, look)).handles[h].pc
         == if s.handles[h].hung || !s.initialized then Failed else Opened(true)
  {
    RunKeepsFlag(Start, es, s);
  }

  // ----- the last close --------------------------------------------------------------------

  /** A hangup while a handle waits for its page in mxser_startup. */
  ghost predicate Interrupts(s: State, e: Event) {
    e.Hangup? && exists h :: At(s, h, Allocating)
  }

  ghost predicate Uninterrupted(s: State, es: seq<Event>)
    decreases |es|
  {
    es == [] || (Enabled(s, es[0]) && !Interrupts(s, es[0]) && Uninterrupted(Next(s, es[0]), es[1..]))
  }

  /** A handle whose close, or the last of whose companions' closes, will reach mxser_shutdown. */
  predicate Uses(x: Handle) {
    !x.hung && !x.pc.Parting?
  }

  ghost predicate UsedInv(s: State) {
    && (s.initialized ==> exists h :: h in s.handles && Uses(s.handles[h]))
    && (forall h :: At(s, h, Allocating) ==> !s.handles[h].hung)
  }

  /** A close that is not the last leaves a handle that counts. */
  lemma OthersCount(s: State, h: Id)
    requires CountInv(s) && Enabled(s, Close(h)) && !s.handles[h].hung && h !in DoClose(s, h).handles
    ensures exists k :: k in DoClose(s, h).handles && Uses(DoClose(s, h).handles[k])
  {
    CloseCounts(s, h);
    var rest := Those(DoClose(s, h).handles, Counts);
    Inhabited(rest);
    var k :| k in rest;
  }

  lemma Inhabited(s: set<Id>)
    ensures |s| != 0 ==> exists k :: k in s
  {
    if forall k :: k !in s {
      assert s == {};
    }
  }

  /** Coming, or going on to open, changes one handle, and not its hung mark. */
  ghost predicate MovesOnly(s: State, s': State, h: Id) {
    && h in s'.handles && s'.handles == s.handles[h := s'.handles[h]] && !Closes(s'.handles[h])
    && s'.handles[h].hung == (h in s.handles && s.handles[h].hung)
    && (s'.handles[h].pc.Allocating? ==> h !in s.handles)
  }

  lemma TurnMoves(s: State, h: Id, look: Look)
    requires At(s, h, Blocked)
    ensures MovesOnly(s, Turn(s, h, look), h)
  {
    assert s.handles == s.handles[h := s.handles[h]];
  }

  lemma ProceedMoves(s: State, h: Id, g: Ground, straight: bool, look: Look)
    requires At(s, h, Allocating)
    ensures MovesOnly(s, DoProceed(s, h, g, straight, look), h)
  {
    var t := Startup(s, g);
    assert t.handles == s.handles;
    if StartupOk(s, g) && !straight {
      var w := JoinWait(t, h);
      TurnMoves(w, h, look);
    }
  }

  lemma Moved(s: State, e: Event)
    requires Enabled(s, e) && (e.Enter? || e.Proceed? || e.Wake?)
    ensures MovesOnly(s, Next(s, e), e.h)
  {
    match e
    case Enter(h) =>
    case Proceed(h, g, straight, look) => ProceedMoves(s, h, g, straight, look);
    case Wake(h, look) => TurnMoves(s, h, look);
  }

  lemma MoveStaysUsed(s: State, e: Event)
    requires UsedInv(s) && Enabled(s, e) && (e.Enter? || e.Proceed? || e.Wake?)
    ensures UsedInv(Next(s, e))
  {
    Moved(s, e);
    var s' := Next(s, e);
    if s.initialized {
      var k :| k in s.handles && Uses(s.handles[k]);
      assert k in s'.handles && Uses(s'.handles[k]);
    } else if s'.initialized {
      assert e.Proceed? && Uses(s'.handles[e.h]);
    }
    forall k | At(s', k, Allocating)
      ensures !s'.handles[k].hung
    {
      assert k == e.h || At(s, k, Allocating);
    }
  }

  lemma CloseStaysUsed(s: State, h: Id)
    requires UsedInv(s) && CountInv(s) && Enabled(s, Close(h))
    ensures UsedInv(DoClose(s, h))
  {
    var s' := DoClose(s, h);
    if s.initialized {
      var k :| k in s.handles && Uses(s.handles[k]);
      if k == h && h !in s'.handles {
        OthersCount(s, h);
      } else {
        assert k in s'.handles && Uses(s'.handles[k]);
      }
    }
    assert forall k :: At(s', k, Allocating) ==> At(s, k, Allocating);
  }

  lemma PartStaysUsed(s: State, h: Id)
    requires UsedInv(s) && Enabled(s, PartEnd(h))
    ensures UsedInv(Next(s, PartEnd(h)))
  {
    var s' := Next(s, PartEnd(h));
    if s.initialized {
      var k :| k in s.handles && Uses(s.handles[k]);
      assert k in s'.handles;
    }
    assert forall k :: At(s', k, Allocating) ==> At(s, k, Allocating);
  }

  lemma StepStaysUsed(s: State, e: Event)
    requires UsedInv(s) && CountInv(s) && Enabled(s, e) && !Interrupts(s, e)
    ensures UsedInv(Next(s, e))
  {
    match e
    case Enter(_) => MoveStaysUsed(s, e);
    case Proceed(_, _, _, _) => MoveStaysUsed(s, e);
    case Wake(_, _) => MoveStaysUsed(s, e);
    case Close(h) => CloseStaysUsed(s, h);
    case CloseEnd(h) => assert forall k :: At(Next(s, e), k, Allocating) ==> At(s, k, Allocating);
    case PartEnd(h) => PartStaysUsed(s, h);
    case Hangup => assert forall k :: At(Next(s, e), k, Allocating) ==> At(s, k, Allocating);
  }

  lemma {:induction false} RunStaysUsed(s: State, es: seq<Event>, s': State)
    requires UsedInv(s) && CountInv(s) && Reaches(s, es, s') && Uninterrupted(s, es)
    ensures UsedInv(s')
    decreases |es|
  {
    if es != [] {
      StepStaysUsed(s, es[0]);
      StepCounts(s, es[0]);
      RunStaysUsed(Next(s, es[0]), es[1..], s');
    }
  }

  /** Once every handle is closed, the port is shut down, if no hangup fell into an open's allocation. */
  lemma LastCloseShutsDown(es: seq<Event>, s: State)
    requires Reaches(Start, es, s) && Uninterrupted(Start, es) && s.handles == map[]
    ensures !s.initialized
  {
    StartCounts();
    RunStaysUsed(Start, es, s);
  }

  /** Puts an event before a run: t is the state it leads to. */
  lemma Before(s: State, e: Event, t: State, es: seq<Event>, last: State)
    requires Enabled(s, e) && Reaches(t, es, last)
    requires Next(s, e).handles == t.handles && Next(s, e).(handles := t.handles) == t
    ensures Reaches(s, [e] + es, last)
  {
    assert ([e] + es)[1..] == es;
  }

  /** An open of a sound port that does not wait. */
  function Plain(h: Id): Event {
    Proceed(h, Ground(true, true, false, true), true, Look(false, false))
  }

  /** One did: the open goes on to initialise the port, and its close returns at once. */
  lemma HangupInOpenLeavesItInitialized() returns (es: seq<Event>, s: State)
    ensures Reaches(Start, es, s) && s.handles == map[] && s.initialized && s.pages == 1
  {
    s := State(map[], 0, 0, true, false, true, 1, 0);
    var s1 := State(map[1 := Handle(Allocating, false)], 1, 0, false, false, false, 0, 0);
    var s2 := State(map[1 := Handle(Allocating, true)], 0, 0, false, false, false, 0, 0);
    var s3 := State(map[1 := Handle(Opened(true), true)], 0, 0, true, false, true, 1, 0);
    Before(s3, Close(1), s, [], s);
    es := [Close(1)] + [];
    Before(s2, Plain(1), s3, es, s);
    es := [Plain(1)] + es;
    Before(s1, Hangup, s2, es, s);
    es := [Hangup] + es;
    Before(Start, Enter(1), s1, es, s);
    es := [Enter(1)] + es;
  }

  // ----- what an interrupting hangup can lead to -------------------------------------------

  /** A continuation without a further such hangup ends with the port initialised and every handle closed. */
  ghost predicate Orphaned(s: State) {
    exists es, s' :: Reaches(s, es, s') && Uninterrupted(s, es) && s'.handles == map[] && s'.initialized
  }

  /** A run without any hangup. */
  ghost predicate Calmly(s: State, es: seq<Event>, s': State) {
    Reaches(s, es, s') && forall e :: e in es ==> !e.Hangup?
  }

  lemma {:induction false} CalmIsUninterrupted(s: State, es: seq<Event>, s': State)
    requires Calmly(s, es, s')
    ensures Uninterrupted(s, es)
    decreases |es|
  {
    if es != [] {
      assert es[0] in es;
      CalmIsUninterrupted(Next(s, es[0]), es[1..], s');
    }
  }

  lemma {:induction false} CalmJoin(s: State, es: seq<Event>, m: State, fs: seq<Event>, s': State)
    requires Calmly(s, es, m) && Calmly(m, fs, s')
    ensures Calmly(s, es + fs, s')
    decreases |es|
  {
    if es == [] {
      assert es + fs == fs;
    } else {
      assert es[0] in es;
      assert forall e :: e in es[1..] ==> e in es;
      CalmJoin(Next(s, es[0]), es[1..], m, fs, s');
      assert (es + fs)[0] == es[0] && (es + fs)[1..] == es[1..] + fs;
    }
  }

  lemma CalmStep(s: State, e: Event, es: seq<Event>, s': State)
    requires Enabled(s, e) && !e.Hangup? && Calmly(Next(s, e), es, s')
    ensures Calmly(s, [e] + es, s')
  {
    assert ([e] + es)[1..] == es;
  }

  /** The next step of a hung handle that is to be gone. */
  function WayOut(h: Id, pc: Pc): Event {
    match pc
    case Allocating => Proceed(h, Ground(false, false, false, false), false, Look(false, false))
    case Blocked => Wake(h, Look(false, false))
    case Opened(_) => Close(h)
    case Failed => Close(h)
    case Closing => CloseEnd(h)
    case Parting => PartEnd(h)
  }

  function StepsOut(pc: Pc): nat {
    if pc.Opened? || pc.Failed? || pc.Parting? then 1 else 2
  }

  lemma OneStepOut(s: State, h: Id)
    requires h in s.handles && s.handles[h].hung
    ensures var pc := s.handles[h].pc; var e := WayOut(h, pc);
      && Enabled(s, e) && !e.Hangup?
      && var s' := Next(s, e);
         if h in s'.handles then
           && StepsOut(s'.handles[h].pc) < StepsOut(pc) && s'.handles[h].hung
           && s'.handles == s.handles[h := s'.handles[h]]
         else s'.handles == s.handles - {h}
  {
  }

  /** A handle that was hung up can always go, and no step of the others is needed for it. */
  lemma {:induction false} Leaves(s: State, h: Id) returns (es: seq<Event>, s': State)
    requires h in s.handles && s.handles[h].hung
    ensures Calmly(s, es, s') && s'.handles == s.handles - {h}
    decreases StepsOut(s.handles[h].pc)
  {
    OneStepOut(s, h);
    var e := WayOut(h, s.handles[h].pc);
    var s1 := Next(s, e);
    if h in s1.handles {
      es, s' := Leaves(s1, h);
    } else {
      es, s' := [], s1;
    }
    CalmStep(s, e, es, s');
    es := [e] + es;
  }

  lemma {:induction false} OthersLeave(s: State, h: Id) returns (es: seq<Event>, s': State)
    requires h in s.handles && forall k :: k in s.handles ==> s.handles[k].hung
    ensures Calmly(s, es, s') && s'.handles == map[h := s.handles[h]]
    decreases |s.handles|
  {
    if forall k :: k in s.handles ==> k == h {
      es, s' := [], s;
    } else {
      var k :| k in s.handles && k != h;
      var es1, s1 := Leaves(s, k);
      FewerHandles(s.handles, k);
      es, s' := OthersLeave(s1, h);
      CalmJoin(s, es1, s1, es, s');
      es := es1 + es;
    }
  }

  lemma FewerHandles(handles: map<Id, Handle>, k: Id)
    requires k in handles
    ensures |handles - {k}| < |handles|
  {
    assert (handles - {k}).Keys == handles.Keys - {k};
    assert |(handles - {k}).Keys| < |handles.Keys|;
  }

  /** Alone and hung up while waiting for its page, an open initialises the port and its handle goes. */
  lemma AloneInitializes(s: State, h: Id) returns (es: seq<Event>, s': State)
    requires At(s, h, Allocating) && s.handles == map[h := s.handles[h]] && s.handles[h].hung
    ensures Calmly(s, es, s') && s'.handles == map[] && s'.initialized
  {
    var s1 := Next(s, Plain(h));
    assert s1.handles == map[h := Handle(Opened(true), true)];
    s' := Next(s1, Close(h));
    assert s'.handles == map[];
    CalmStep(s1, Close(h), [], s');
    CalmStep(s, Plain(h), [Close(h)] + [], s');
    es := [Plain(h)] + ([Close(h)] + []);
  }

  lemma InterruptOrphans(s: State)
    requires Interrupts(s, Hangup)
    ensures Orphaned(Next(s, Hangup))
  {
    var h :| At(s, h, Allocating);
    var s1 := Next(s, Hangup);
    assert forall k :: k in s1.handles ==> s1.handles[k].hung;
    var es1, s2 := OthersLeave(s1, h);
    var es2, s3 := AloneInitializes(s2, h);
    CalmJoin(s1, es1, s2, es2, s3);
    CalmIsUninterrupted(s1, es1 + es2, s3);
  }

  /**
   In any run so far without one, a step can be what leaves the port initialised after the last
   close exactly when it is a hangup that falls into an open's allocation.
   */
  lemma OrphanedIffInterrupted(es: seq<Event>, s: State, e: Event)
    requires Reaches(Start, es, s) && Uninterrupted(Start, es) && Enabled(s, e)
    ensures Orphaned(Next(s, e)) <==> Interrupts(s, e)
  {
    if Interrupts(s, e) {
      InterruptOrphans(s);
    } else {
      StartCounts();
      RunStaysUsed(Start, es, s);
      RunCounts(Start, es, s);
      StepStaysUsed(s, e);
      StepCounts(s, e);
      forall fs, s' | Reaches(Next(s, e), fs, s') && Uninterrupted(Next(s, e), fs)
        ensures s'.handles == map[] ==> !s'.initialized
      {
        RunStaysUsed(Next(s, e), fs, s');
      }
    }
  }

  // ----- a close under an open handle ------------------------------------------------------

  /** An open handle that was not hung up and whose open found the port working. */
  predicate Live(s: State, h: Id) {
    h in s.handles && s.handles[h] == Handle(Opened(true), false)
  }

  /** The port was shut down under it. */
  ghost predicate Dead(s: State) {
    !s.initialized && exists h :: Live(s, h)
  }

  /** An open succeeds while the last close before it still drains. */
  ghost predicate OpensInClose(s: State, e: Event)
    requires Enabled(s, e)
  {
    && (e.Proceed? || e.Wake?) && Live(Next(s, e), e.h)
    && exists k :: At(s, k, Closing)
  }

  ghost predicate Apart(s: State, es: seq<Event>)
    decreases |es|
  {
    es == [] || (Enabled(s, es[0]) && !OpensInClose(s, es[0]) && Apart(Next(s, es[0]), es[1..]))
  }

  /** A continuation without a further such open shuts the port down under an open handle. */
  ghost predicate CanDie(s: State) {
    exists es, s' :: Reaches(s, es, s') && Apart(s, es) && Dead(s')
  }

  ghost predicate StandInv(s: State) {
    (exists h :: Live(s, h)) ==> s.initialized && forall k :: !At(s, k, Closing)
  }

  /** A handle that starts to drain was the last that counted. */
  lemma LastOneCloses(s: State, h: Id)
    requires CountInv(s) && Enabled(s, Close(h)) && At(DoClose(s, h), h, Closing)
    ensures forall k :: !Live(DoClose(s, h), k)
  {
    CloseCounts(s, h);
    var s' := DoClose(s, h);
    assert Those(s'.handles, Counts) == {};
    assert forall k :: Live(s', k) ==> k in Those(s'.handles, Counts);
  }

  /** Opening a handle is done on an initialised port, if it counts as up. */
  lemma OpenStands(s: State, e: Event)
    requires StandInv(s) && Enabled(s, e) && (e.Enter? || e.Proceed? || e.Wake?) && !OpensInClose(s, e)
    ensures StandInv(Next(s, e))
  {
    Moved(s, e);
    var s' := Next(s, e);
    assert forall k :: At(s', k, Closing) ==> At(s, k, Closing);
    if h :| Live(s', h) {
      if h != e.h {
        assert Live(s, h);
      }
      assert s.initialized ==> s'.initialized;
    }
  }

  lemma CloseStands(s: State, h: Id)
    requires StandInv(s) && CountInv(s) && Enabled(s, Close(h))
    ensures StandInv(DoClose(s, h))
  {
    var s' := DoClose(s, h);
    if At(s', h, Closing) {
      LastOneCloses(s, h);
    } else {
      assert forall k :: Live(s', k) ==> Live(s, k);
      assert forall k :: At(s', k, Closing) ==> At(s, k, Closing);
    }
  }

  lemma StepStands(s: State, e: Event)
    requires StandInv(s) && CountInv(s) && Enabled(s, e) && !OpensInClose(s, e)
    ensures StandInv(Next(s, e))
  {
    match e
    case Enter(_) => OpenStands(s, e);
    case Proceed(_, _, _, _) => OpenStands(s, e);
    case Wake(_, _) => OpenStands(s, e);
    case Close(h) => CloseStands(s, h);
    case CloseEnd(h) => assert forall k :: Live(Next(s, e), k) ==> Live(s, k);
    case PartEnd(h) =>
      assert forall k :: Live(Next(s, e), k) ==> Live(s, k);
      assert forall k :: At(Next(s, e), k, Closing) ==> At(s, k, Closing);
    case Hangup => assert forall k :: !Live(Next(s, e), k);
  }

  lemma {:induction false} RunStands(s: State, es: seq<Event>, s': State)
    requires StandInv(s) && CountInv(s) && Reaches(s, es, s') && Apart(s, es)
    ensures StandInv(s')
    decreases |es|
  {
    if es != [] {
      StepStands(s, es[0]);
      StepCounts(s, es[0]);
      RunStands(Next(s, es[0]), es[1..], s');
    }
  }

  /** Such an open is followed by the end of that close, from whatever state. */
  lemma OpenInCloseDies(s: State, e: Event)
    requires Enabled(s, e) && OpensInClose(s, e)
    ensures CanDie(Next(s, e))
  {
    var k :| At(s, k, Closing);
    var s1 := Next(s, e);
    Moved(s, e);
    assert At(s1, k, Closing) && k != e.h;
    var s' := Next(s1, CloseEnd(k));
    assert Live(s', e.h) && !s'.initialized;
    assert [CloseEnd(k)][1..] == [];
    assert Reaches(s1, [CloseEnd(k)], s') && Apart(s1, [CloseEnd(k)]);
  }

  /**
   A handle that opened a working port and was not hung up keeps it until its own close, over every
   run in which no open succeeds while a last close still drains; and after a step of such a run it
   can lose it before another such step exactly when the step is one.
   */
  lemma DiesIffOpenedInClose(es: seq<Event>, s: State, e: Event)
    requires Reaches(Start, es, s) && Apart(Start, es) && Enabled(s, e)
    ensures !Dead(s)
    ensures CanDie(Next(s, e)) <==> OpensInClose(s, e)
  {
    StartCounts();
    RunStands(Start, es, s);
    RunCounts(Start, es, s);
    if OpensInClose(s, e) {
      OpenInCloseDies(s, e);
    } else {
      StepStands(s, e);
      StepCounts(s, e);
      forall fs, s' | Reaches(Next(s, e), fs, s') && Apart(Next(s, e), fs)
        ensures !Dead(s')
      {
        RunStands(Next(s, e), fs, s');
      }
    }
  }

  /** One open during another's last close: it succeeds, is counted, and the port is shut down under it. */
  lemma OpenInCloseRun() returns (es: seq<Event>, s: State)
    ensures Reaches(Start, es, s) && Live(s, 2) && s.count == 1 && !s.initialized
  {
    var using, draining := Handle(Opened(true), false), Handle(Closing, false);
    s := State(map[2 := using], 1, 0, false, false, false, 0, 0);
    var s3 := State(map[1 := draining], 0, 0, true, true, true, 1, 0);
    var s4 := State(map[1 := draining, 2 := Handle(Allocating, false)], 1, 0, true, true, true, 1, 0);
    var s5 := State(map[1 := draining, 2 := using], 1, 0, true, true, true, 1, 0);
    Before(s5, CloseEnd(1), s, [], s);
    es := [CloseEnd(1)] + [];
    Before(s4, Plain(2), s5, es, s);
    es := [Plain(2)] + es;
    Before(s3, Enter(2), s4, es, s);
    es := [Enter(2)] + es;
    es := FirstCloses(s3, es, s);
  }

  // ----- the flag that keeps waiting opens out ----------------------------------------------

  /** The end of one close clears ASYNC_CLOSING under another. */
  ghost predicate ClearsEarly(s: State, e: Event) {
    && (e.CloseEnd? || e.PartEnd?) && Enabled(s, e) && !Next(s, e).closing
    && exists k :: k != e.h && k in s.handles && Closes(s.handles[k])
  }

  ghost predicate Orderly(s: State, es: seq<Event>)
    decreases |es|
  {
    es == [] || (Enabled(s, es[0]) && !ClearsEarly(s, es[0]) && Orderly(Next(s, es[0]), es[1..]))
  }

  ghost predicate ShutInv(s: State) {
    forall h :: h in s.handles && Closes(s.handles[h]) ==> s.closing
  }

  lemma StepKeepsShut(s: State, e: Event)
    requires ShutInv(s) && Enabled(s, e) && !ClearsEarly(s, e)
    ensures ShutInv(Next(s, e))
  {
    var s' := Next(s, e);
    if e.Enter? || e.Proceed? || e.Wake? {
      Moved(s, e);
    }
    forall h | h in s'.handles && Closes(s'.handles[h])
      ensures s'.closing
    {
      assert (h in s.handles && Closes(s.handles[h])) || (e.Close? && h == e.h);
    }
  }

  lemma {:induction false} RunKeepsShut(s: State, es: seq<Event>, s': State)
    requires ShutInv(s) && Reaches(s, es, s') && Orderly(s, es)
    ensures ShutInv(s')
    decreases |es|
  {
    if es != [] {
      StepKeepsShut(s, es[0]);
      RunKeepsShut(Next(s, es[0]), es[1..], s');
    }
  }

  /** The loop opens only when it reads no ASYNC_CLOSING. */
  lemma OpensUnflagged(s: State, e: Event)
    requires Enabled(s, e) && OpensInClose(s, e) && !(e.Proceed? && e.straight)
    ensures !s.closing
  {
    if e.Proceed? {
      assert Startup(s, e.g).closing == s.closing;
      assert JoinWait(Startup(s, e.g), e.h).closing == s.closing;
    }
  }

  /**
   ASYNC_CLOSING tells exactly whether a close is under way, and of the opens only one that does not
   wait succeeds in a last close, over every run in which no close clears the flag under another.
   */
  lemma FlagKeepsWaitersOut(es: seq<Event>, s: State, e: Event)
    requires Reaches(Start, es, s) && Orderly(Start, es) && Enabled(s, e)
    ensures s.closing <==> exists h :: h in s.handles && Closes(s.handles[h])
    ensures OpensInClose(s, e) ==> e.Proceed? && e.straight
  {
    RunKeepsFlag(Start, es, s);
    RunKeepsShut(Start, es, s);
    if OpensInClose(s, e) && !(e.Proceed? && e.straight) {
      OpensUnflagged(s, e);
    }
  }

  /** Two closes: the first clears the flag, and an open with a carrier gets in under the second. */
  lemma WaiterOpensInClose() returns (es: seq<Event>, s: State, e: Event)
    ensures Reaches(Start, es, s) && Enabled(s, e) && OpensInClose(s, e) && e.Proceed? && !e.straight
  {
    var draining := Handle(Closing, false);
    s := State(map[2 := draining, 3 := Handle(Allocating, false)], 1, 0, false, false, false, 0, 0);
    e := Proceed(3, Ground(true, true, false, true), false, Look(true, false));
    assert Startup(s, e.g) == s.(xmitBuf := true, pages := 1, initialized := true);
    assert At(s, 2, Closing) && Live(Next(s, e), 3);
    es := TwoCloses(s);
  }

  /** A failed open during a last close makes another last close. */
  lemma TwoCloses(s: State) returns (es: seq<Event>)
    requires s == State(map[2 := Handle(Closing, false), 3 := Handle(Allocating, false)], 1, 0, false, false, false,
                        0, 0)
    ensures Reaches(Start, es, s)
  {
    var draining := Handle(Closing, false);
    var s3 := State(map[1 := draining], 0, 0, true, true, true, 1, 0);
    var s4 := State(map[1 := draining, 2 := Handle(Allocating, false)], 1, 0, true, true, true, 1, 0);
    var s5 := State(map[1 := draining, 2 := Handle(Failed, false)], 1, 0, true, true, true, 1, 0);
    var s6 := State(map[1 := draining, 2 := draining], 0, 0, true, true, true, 1, 0);
    var s7 := State(map[2 := draining], 0, 0, false, false, false, 0, 0);
    var noPage := Proceed(2, Ground(false, true, false, true), false, Look(false, false));
    Before(s7, Enter(3), s, [], s);
    es := [Enter(3)] + [];
    Before(s6, CloseEnd(1), s7, es, s);
    es := [CloseEnd(1)] + es;
    Before(s5, Close(2), s6, es, s);
    es := [Close(2)] + es;
    Before(s4, noPage, s5, es, s);
    es := [noPage] + es;
    Before(s3, Enter(2), s4, es, s);
    es := [Enter(2)] + es;
    es := FirstCloses(s3, es, s);
  }

  /** An open and its close, up to the drain. */
  lemma FirstCloses(s: State, fs: seq<Event>, last: State) returns (es: seq<Event>)
    requires s == State(map[1 := Handle(Closing, false)], 0, 0, true, true, true, 1, 0) && Reaches(s, fs, last)
    ensures Reaches(Start, es, last)
  {
    var s1 := State(map[1 := Handle(Allocating, false)], 1, 0, false, false, false, 0, 0);
    var s2 := State(map[1 := Handle(Opened(true), false)], 1, 0, true, false, true, 1, 0);
    Before(s2, Close(1), s, fs, last);
    es := [Close(1)] + fs;
    Before(s1, Plain(1), s2, es, last);
    es := [Plain(1)] + es;
    Before(Start, Enter(1), s1, es, last);
    es := [Enter(1)] + es;
  }
}
