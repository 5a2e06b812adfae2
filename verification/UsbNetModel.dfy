/**
 The USB network transfer engine as a state machine over its atomic sections.

 A section is what one thread does between acquiring and releasing a queue lock, or the
 unlocked writes it makes to an entry that it alone is completing.  Completion handlers,
 the tasklet, the transmit entry point, unlinkers and the suspend/resume pair are threads:
 what a thread still has to do, and what it holds meanwhile, is its `Local` record.  Any
 enabled event may happen next, so a run is an arbitrary interleaving.

 `owner`, `holder`, `accepted`, `settled`, `wire`, `resumed`, `unlinkCalls`, `skbFrees` and
 `urbFrees` are history: no event looks at them to decide what to do.
 */
module UsbNetModel {
  import opened Basics

  type Skb = int
  type Urb = int
  type Tid = int

  /** enum skb_state */
  datatype SkbState = Illegal | TxStart | TxDone | RxStart | RxDone | RxCleanup | UnlinkStart

  /** struct skb_data: the control block of a socket buffer */
  datatype Entry = Entry(state: SkbState, urb: Option<Urb>)

  /** Why a queued buffer is still queued: its transfer is pending, or its completion handler runs. */
  datatype By = Host(u: Urb) | Handler(t: Tid)

  datatype Owner =
    | OnRxq(why: By) | OnTxq(why: By) | OnDone | OnPause | OnAnchor
    | InHand(t: Tid) | WithStack | Freed | Leaked

  /** Who holds the reference that usb_alloc_urb created. */
  datatype Holder = ViaEntry(x: Skb) | ViaAnchor | HeldBy(t: Tid) | Gone

  /** The references counted on a URB; its memory lives while there is one. */
  datatype Ref = Base | Core | Pin(t: Tid)

  datatype Local =
    | RxTop(u: Urb, x: Skb)                                   // rx_complete entered
    | RxMid(x: Skb, next: SkbState, keep: Option<Urb>)        // status classified, defer_bh next
    | RxMoving(x: Skb, was: SkbState, keep: Option<Urb>)      // off rxq, not yet on done
    | RxAfter(was: SkbState, keep: Option<Urb>)               // on done; resubmit or free
    | TxMid(x: Skb) | TxMoving(x: Skb)                        // tx_complete, likewise
    | Submit(u: Urb)                                          // rx_submit entered
    | Ready(u: Urb, x: Skb)                                   // buffer allocated and filled
    | Locked(u: Urb, x: Skb, go: bool)                        // rxq.lock held, flags tested
    | Failed(u: Urb, x: Skb)                                  // not submitted, both to be freed
    | BhHas(x: Skb) | BhRx(x: Skb)                            // usbnet_bh: dequeued; in rx_process
    | Xmit(x: Skb, u: Urb) | XmitFailed(x: Skb, u: Urb)       // usbnet_start_xmit
    | Unlinking(pinned: Option<Urb>, x: Skb)                       // unlink_urbs, lock dropped

  datatype Bufs = Bufs(cb: map<Skb, Entry>, owner: map<Skb, Owner>)

  datatype Urbs = Urbs(ctx: map<Urb, Skb>, refs: map<Urb, set<Ref>>, holder: map<Urb, Holder>,
                       hostRx: set<Urb>, hostTx: set<Urb>)

  datatype Queues = Queues(rxq: seq<Skb>, txq: seq<Skb>, done: seq<Skb>, pause: seq<Skb>, deferred: seq<Urb>)

  datatype Control = Control(rxLock: Option<Tid>, draining: bool, asleep: bool, halt: bool, kill: bool, memory: bool,
                             suspendCount: nat, swept: bool, power: int)

  datatype History = History(accepted: seq<Skb>, settled: seq<(Skb, bool)>, wire: seq<Skb>, resumed: map<Skb, SkbState>,
                             unlinkCalls: seq<Skb>, skbFrees: seq<Skb>, urbFrees: seq<Urb>)

  datatype State = State(bufs: Bufs, urbs: Urbs, queues: Queues, threads: map<Tid, Local>, ctl: Control, hist: History)
  {
    const cb := bufs.cb
    const owner := bufs.owner
    const ctx := urbs.ctx
    const refs := urbs.refs
    const holder := urbs.holder
    const hostRx := urbs.hostRx
    const hostTx := urbs.hostTx
    const rxq := queues.rxq
    const txq := queues.txq
    const done := queues.done
    const pause := queues.pause
    const deferred := queues.deferred
    const rxLock := ctl.rxLock
    const draining := ctl.draining
    const asleep := ctl.asleep
    const halt := ctl.halt
    const kill := ctl.kill
    const memory := ctl.memory
    const suspendCount := ctl.suspendCount
    const swept := ctl.swept
    const power := ctl.power
    const accepted := hist.accepted
    const settled := hist.settled
    const wire := hist.wire
    const resumed := hist.resumed
    const unlinkCalls := hist.unlinkCalls
    const skbFrees := hist.skbFrees
    const urbFrees := hist.urbFrees
  }

  datatype RxStatus = Good | Block(stall: bool) | Bad
  datatype SubmitStatus = Accepted | Stalled | NoMemory | OtherError
  datatype Delivery = ToStack | ToPause | ToDone

  datatype Event =
    | RxGiveback(t: Tid, u: Urb)
    | RxClassify(t: Tid, verdict: RxStatus)
    | RxUnlink(t: Tid)
    | RxQueueDone(t: Tid)
    | RxDecide(t: Tid, running: bool)
    | AllocRxUrb(t: Tid, u: Urb)
    | RxAlloc(t: Tid, x: Skb, ok: bool)
    | RxLockTest(t: Tid, running: bool)
    | RxSubmitLocked(t: Tid, status: SubmitStatus)
    | RxDropFailed(t: Tid)
    | BhDequeue(t: Tid)
    | BhDispatch(t: Tid)
    | BhDeliver(t: Tid, dest: Delivery)
    | PauseReturn(purge: bool)
    | XmitBegin(t: Tid, x: Skb, left: SkbState, u: Urb)
    | XmitLocked(t: Tid, pmOk: bool, status: SubmitStatus)
    | XmitDrop(t: Tid)
    | TxGiveback(t: Tid, u: Urb)
    | TxUnlink(t: Tid)
    | TxQueueDone(t: Tid)
    | UnlinkPick(t: Tid, rx: bool)
    | UnlinkPut(t: Tid)
    | Suspend(auto: bool)
    | SweepDone
    | ResumeBegin
    | ResumeOne(ok: bool)
    | ResumeEnd
    | Flags(halt: bool, kill: bool, memory: bool)

  // ----- lookups ---------------------------------------------------------------------------

  function Cb(s: State, x: Skb): Entry {
    if x in s.cb then s.cb[x] else Entry(Illegal, None)
  }

  function Ctx(s: State, u: Urb): Skb {
    if u in s.ctx then s.ctx[u] else 0
  }

  function Refs(s: State, u: Urb): set<Ref> {
    if u in s.refs then s.refs[u] else {}
  }

  /** skb_queue_walk of unlink_urbs: the first entry not yet in unlink_start. */
  function FirstToUnlink(cb: map<Skb, Entry>, q: seq<Skb>): (r: Option<Skb>)
    ensures r.None? ==> forall x :: x in q && x in cb ==> cb[x].state == UnlinkStart
    ensures r.Some? ==> r.value in q && (r.value in cb ==> cb[r.value].state != UnlinkStart)
  {
    if q == [] then None
    else if q[0] !in cb || cb[q[0]].state != UnlinkStart then Some(q[0])
    else FirstToUnlink(cb, q[1..])
  }

  function At(s: State, t: Tid): (l: Option<Local>) {
    if t in s.threads then Some(s.threads[t]) else None
  }

  // ----- small updates ---------------------------------------------------------------------

  function Goto(s: State, t: Tid, l: Local): State {
    s.(threads := s.threads[t := l])
  }

  function End(s: State, t: Tid): State {
    s.(threads := s.threads - {t})
  }

  function FreeSkb(s: State, x: Skb): State {
    s.(bufs := s.bufs.(owner := s.owner[x := Freed]), hist := s.hist.(skbFrees := s.skbFrees + [x]))
  }

  /** usb_free_urb drops the base reference. */
  function FreeUrb(s: State, u: Urb): State {
    s.(urbs := s.urbs.(holder := s.holder[u := Gone], refs := s.refs[u := Refs(s, u) - {Base}]),
       hist := s.hist.(urbFrees := s.urbFrees + [u]))
  }

  function FreeBoth(s: State, x: Skb, u: Urb): State {
    s.(bufs := s.bufs.(owner := s.owner[x := Freed]),
       hist := s.hist.(skbFrees := s.skbFrees + [x], urbFrees := s.urbFrees + [u]),
       urbs := s.urbs.(holder := s.holder[u := Gone], refs := s.refs[u := Refs(s, u) - {Base}]))
  }

  /** Frees a finished buffer and the URB its entry still names; usb_free_urb ignores NULL. */
  function EndFreeing(s: State, t: Tid, x: Skb): State {
    match Cb(s, x).urb
    case None => End(FreeSkb(s, x), t)
    case Some(u) => End(FreeBoth(s, x, u), t)
  }

  // ----- enabledness -----------------------------------------------------------------------

  predicate Enabled(s: State, e: Event) {
    match e
    case RxGiveback(t, u) => t !in s.threads && u in s.hostRx
    case RxClassify(t, _) => At(s, t).Some? && s.threads[t].RxTop?
    case RxUnlink(t) => At(s, t).Some? && s.threads[t].RxMid? && s.rxLock == None
    case RxQueueDone(t) => At(s, t).Some? && s.threads[t].RxMoving?
    case RxDecide(t, _) => At(s, t).Some? && s.threads[t].RxAfter?
    case AllocRxUrb(t, u) => t !in s.threads && u !in s.refs
    case RxAlloc(t, x, _) => At(s, t).Some? && s.threads[t].Submit? && x !in s.cb
    case RxLockTest(t, _) => At(s, t).Some? && s.threads[t].Ready? && s.rxLock == None
    case RxSubmitLocked(t, _) => At(s, t).Some? && s.threads[t].Locked?
    case RxDropFailed(t) => At(s, t).Some? && s.threads[t].Failed?
    case BhDequeue(t) => t !in s.threads && s.done != []
    case BhDispatch(t) => At(s, t).Some? && s.threads[t].BhHas?
    case BhDeliver(t, _) => At(s, t).Some? && s.threads[t].BhRx?
    case PauseReturn(_) => s.pause != []
    case XmitBegin(t, x, _, u) => t !in s.threads && x !in s.cb && u !in s.refs
    case XmitLocked(t, _, _) => At(s, t).Some? && s.threads[t].Xmit? && !s.draining
    case XmitDrop(t) => At(s, t).Some? && s.threads[t].XmitFailed?
    case TxGiveback(t, u) => t !in s.threads && u in s.hostTx
    case TxUnlink(t) => At(s, t).Some? && s.threads[t].TxMid? && !s.draining
    case TxQueueDone(t) => At(s, t).Some? && s.threads[t].TxMoving?
    case UnlinkPick(t, rx) =>
      && t !in s.threads
      && (if rx then s.rxLock == None else !s.draining)
      && FirstToUnlink(s.cb, if rx then s.rxq else s.txq).Some?
    case UnlinkPut(t) => At(s, t).Some? && s.threads[t].Unlinking?
    case Suspend(_) => !s.draining
    case SweepDone => s.asleep && !s.draining && s.rxLock == None && FirstToUnlink(s.cb, s.rxq).None?
    case ResumeBegin => s.suspendCount > 0 && !s.draining
    case ResumeOne(_) => s.draining && s.deferred != []
    case ResumeEnd => s.draining && s.deferred == []
    case Flags(_, _, _) => true
  }

  // ----- receive ---------------------------------------------------------------------------

  /** The host controller gives a read back and rx_complete starts. */
  function DoRxGiveback(s: State, t: Tid, u: Urb): State {
    var x := Ctx(s, u);
    Goto(s.(urbs := s.urbs.(hostRx := s.hostRx - {u}, refs := s.refs[u := Refs(s, u) - {Core}]),
            bufs := s.bufs.(owner := s.owner[x := OnRxq(Handler(t))])), t, RxTop(u, x))
  }

  function DoRxClassify(s: State, t: Tid, verdict: RxStatus): State
    requires t in s.threads && s.threads[t].RxTop?
  {
    var RxTop(u, x) := s.threads[t];
    match verdict
    case Block(stall) =>
      Goto(s.(bufs := s.bufs.(cb := s.cb[x := Cb(s, x).(urb := Some(u))]), ctl := s.ctl.(halt := s.halt || stall)),
           t, RxMid(x, RxCleanup, None))
    case _ =>
      Goto(s.(bufs := s.bufs.(cb := s.cb[x := Cb(s, x).(urb := None)]),
              urbs := s.urbs.(holder := s.holder[u := HeldBy(t)])),
           t, RxMid(x, if verdict.Good? then RxDone else RxCleanup, Some(u)))
  }

  /** First half of defer_bh: exchange the state and leave the list, under the list's lock. */
  function DoRxUnlink(s: State, t: Tid): State
    requires t in s.threads && s.threads[t].RxMid?
  {
    var RxMid(x, next, keep) := s.threads[t];
    Goto(s.(bufs := s.bufs.(cb := s.cb[x := Cb(s, x).(state := next)], owner := s.owner[x := InHand(t)]),
            queues := s.queues.(rxq := Without(s.rxq, x))),
         t, RxMoving(x, Cb(s, x).state, keep))
  }

  /** Second half of defer_bh, under done.lock. */
  function DoRxQueueDone(s: State, t: Tid): State
    requires t in s.threads && s.threads[t].RxMoving?
  {
    var RxMoving(x, was, keep) := s.threads[t];
    Goto(s.(queues := s.queues.(done := s.done + [x]),
            bufs := s.bufs.(owner := s.owner[x := OnDone])), t, RxAfter(was, keep))
  }

  function DoRxDecide(s: State, t: Tid, running: bool): State
    requires t in s.threads && s.threads[t].RxAfter?
  {
    var RxAfter(was, keep) := s.threads[t];
    match keep
    case None => End(s, t)
    case Some(u) =>
      if running && !s.halt && was != UnlinkStart then Goto(s, t, Submit(u)) else End(FreeUrb(s, u), t)
  }

  function DoAllocRxUrb(s: State, t: Tid, u: Urb): State {
    Goto(s.(urbs := s.urbs.(refs := s.refs[u := {Base}], holder := s.holder[u := HeldBy(t)])), t, Submit(u))
  }

  function DoRxAlloc(s: State, t: Tid, x: Skb, ok: bool): State
    requires t in s.threads && s.threads[t].Submit?
  {
    var u := s.threads[t].u;
    if s.kill then End(FreeUrb(s, u), t)
    else if !ok then End(FreeUrb(s.(ctl := s.ctl.(memory := true)), u), t)
    else Goto(s.(bufs := s.bufs.(cb := s.cb[x := Entry(Illegal, Some(u))], owner := s.owner[x := InHand(t)]),
                 urbs := s.urbs.(ctx := s.ctx[u := x])),
              t, Ready(u, x))
  }

  function DoRxLockTest(s: State, t: Tid, running: bool): State
    requires t in s.threads && s.threads[t].Ready?
  {
    var Ready(u, x) := s.threads[t];
    Goto(s.(ctl := s.ctl.(rxLock := Some(t))), t, Locked(u, x, running && !s.halt && !s.asleep))
  }

  function DoRxSubmitLocked(s: State, t: Tid, status: SubmitStatus): State
    requires t in s.threads && s.threads[t].Locked?
  {
    var Locked(u, x, go) := s.threads[t];
    var s1 := s.(ctl := s.ctl.(rxLock := None));
    if !go then Goto(s1, t, Failed(u, x))
    else match status
      case Accepted =>
        End(s1.(queues := s1.queues.(rxq := s.rxq + [x]),
                bufs := s1.bufs.(cb := s.cb[x := Cb(s, x).(state := RxStart)], owner := s.owner[x := OnRxq(Host(u))]),
                urbs := s1.urbs.(hostRx := s.hostRx + {u}, refs := s.refs[u := Refs(s, u) + {Core}],
                    holder := s.holder[u := ViaEntry(x)])), t)
      case Stalled => Goto(s1.(ctl := s1.ctl.(halt := true)), t, Failed(u, x))
      case NoMemory => Goto(s1.(ctl := s1.ctl.(memory := true)), t, Failed(u, x))
      case OtherError => Goto(s1, t, Failed(u, x))
  }

  function DoRxDropFailed(s: State, t: Tid): State
    requires t in s.threads && s.threads[t].Failed?
  {
    var Failed(u, x) := s.threads[t];
    End(FreeBoth(s, x, u), t)
  }

  // ----- tasklet ---------------------------------------------------------------------------

  function DoBhDequeue(s: State, t: Tid): State
    requires s.done != []
  {
    var x := s.done[0];
    Goto(s.(queues := s.queues.(done := s.done[1..]), bufs := s.bufs.(owner := s.owner[x := InHand(t)])), t, BhHas(x))
  }

  /** The switch of usbnet_bh.  Its default branch only logs, so the buffer is lost. */
  function DoBhDispatch(s: State, t: Tid): State
    requires t in s.threads && s.threads[t].BhHas?
  {
    var x := s.threads[t].x;
    match Cb(s, x).state
    case RxDone => Goto(s.(bufs := s.bufs.(cb := s.cb[x := Cb(s, x).(state := RxCleanup)])), t, BhRx(x))
    case TxDone => EndFreeing(s, t, x)
    case RxCleanup => EndFreeing(s, t, x)
    case _ => End(s.(bufs := s.bufs.(owner := s.owner[x := Leaked])), t)
  }

  function DoBhDeliver(s: State, t: Tid, dest: Delivery): State
    requires t in s.threads && s.threads[t].BhRx?
  {
    var x := s.threads[t].x;
    match dest
    case ToStack => End(s.(bufs := s.bufs.(owner := s.owner[x := WithStack])), t)
    case ToPause => End(s.(queues := s.queues.(pause := s.pause + [x]),
                           bufs := s.bufs.(owner := s.owner[x := OnPause])), t)
    case ToDone => End(s.(queues := s.queues.(done := s.done + [x]),
                          bufs := s.bufs.(owner := s.owner[x := OnDone])), t)
  }

  function DoPauseReturn(s: State, purge: bool): State
    requires s.pause != []
  {
    var x := s.pause[0];
    var s1 := s.(queues := s.queues.(pause := s.pause[1..]));
    if purge then FreeSkb(s1, x) else s1.(bufs := s1.bufs.(owner := s.owner[x := WithStack]))
  }

  // ----- transmit --------------------------------------------------------------------------

  /** The stack hands over x, whose control block still holds whatever its last user left there. */
  function DoXmitBegin(s: State, t: Tid, x: Skb, left: SkbState, u: Urb): State {
    Goto(s.(bufs := s.bufs.(cb := s.cb[x := Entry(left, Some(u))], owner := s.owner[x := InHand(t)]),
            urbs := s.urbs.(ctx := s.ctx[u := x], refs := s.refs[u := {Base}],
                holder := s.holder[u := HeldBy(t)])), t, Xmit(x, u))
  }

  /** The txq.lock section of usbnet_start_xmit. */
  function DoXmitLocked(s: State, t: Tid, pmOk: bool, status: SubmitStatus): State
    requires t in s.threads && s.threads[t].Xmit?
  {
    var Xmit(x, u) := s.threads[t];
    if !pmOk then Goto(s, t, XmitFailed(x, u))
    else if s.asleep then
      End(s.(ctl := s.ctl.(power := s.power + 1),
             queues := s.queues.(deferred := s.deferred + [u]),
             urbs := s.urbs.(holder := s.holder[u := ViaAnchor]),
             bufs := s.bufs.(owner := s.owner[x := OnAnchor]),
             hist := s.hist.(accepted := s.accepted + [x])), t)
    else match status
      case Accepted =>
        End(s.(ctl := s.ctl.(power := s.power + 1),
               queues := s.queues.(txq := s.txq + [x]),
               bufs := s.bufs.(cb := s.cb[x := Cb(s, x).(state := TxStart)], owner := s.owner[x := OnTxq(Host(u))]),
               urbs := s.urbs.(hostTx := s.hostTx + {u}, refs := s.refs[u := Refs(s, u) + {Core}],
                   holder := s.holder[u := ViaEntry(x)]),
               hist := s.hist.(accepted := s.accepted + [x], settled := s.settled + [(x, true)],
                               wire := s.wire + [x])), t)
      case _ => Goto(s, t, XmitFailed(x, u))
  }

  function DoXmitDrop(s: State, t: Tid): State
    requires t in s.threads && s.threads[t].XmitFailed?
  {
    var XmitFailed(x, u) := s.threads[t];
    End(FreeBoth(s, x, u), t)
  }

  /** tx_complete up to its call of defer_bh, which drops the power reference first. */
  function DoTxGiveback(s: State, t: Tid, u: Urb): State {
    var x := Ctx(s, u);
    Goto(s.(urbs := s.urbs.(hostTx := s.hostTx - {u}, refs := s.refs[u := Refs(s, u) - {Core}]),
            bufs := s.bufs.(owner := s.owner[x := OnTxq(Handler(t))]),
            ctl := s.ctl.(power := s.power - 1)), t, TxMid(x))
  }

  function DoTxUnlink(s: State, t: Tid): State
    requires t in s.threads && s.threads[t].TxMid?
  {
    var x := s.threads[t].x;
    Goto(s.(bufs := s.bufs.(cb := s.cb[x := Cb(s, x).(state := TxDone)], owner := s.owner[x := InHand(t)]),
            queues := s.queues.(txq := Without(s.txq, x))),
         t, TxMoving(x))
  }

  function DoTxQueueDone(s: State, t: Tid): State
    requires t in s.threads && s.threads[t].TxMoving?
  {
    var x := s.threads[t].x;
    End(s.(queues := s.queues.(done := s.done + [x]), bufs := s.bufs.(owner := s.owner[x := OnDone])), t)
  }

  // ----- unlinking -------------------------------------------------------------------------

  function DoMark(s: State, x: Skb): State {
    s.(bufs := s.bufs.(cb := s.cb[x := Cb(s, x).(state := UnlinkStart)]),
       hist := s.hist.(unlinkCalls := s.unlinkCalls + [x]))
  }

  /** usb_get_urb, before the lock is dropped for usb_unlink_urb. */
  function DoPin(s: State, t: Tid, x: Skb): State {
    match Cb(s, x).urb
    case None => Goto(s, t, Unlinking(None, x))
    case Some(u) => Goto(s.(urbs := s.urbs.(refs := s.refs[u := Refs(s, u) + {Pin(t)}])), t, Unlinking(Some(u), x))
  }

  function DoUnlinkPick(s: State, t: Tid, rx: bool): State
    requires FirstToUnlink(s.cb, if rx then s.rxq else s.txq).Some?
  {
    var x := FirstToUnlink(s.cb, if rx then s.rxq else s.txq).value;
    DoPin(DoMark(s, x), t, x)
  }

  function DoUnlinkPut(s: State, t: Tid): State
    requires t in s.threads && s.threads[t].Unlinking?
  {
    match s.threads[t].pinned
    case None => End(s, t)
    case Some(u) => End(s.(urbs := s.urbs.(refs := s.refs[u := Refs(s, u) - {Pin(t)}])), t)
  }

  // ----- suspend and resume ----------------------------------------------------------------

  function DoSuspend(s: State, auto: bool): State {
    if s.suspendCount > 0 then s.(ctl := s.ctl.(suspendCount := s.suspendCount + 1))
    else if s.txq != [] && auto then s
    else s.(ctl := s.ctl.(suspendCount := 1, asleep := true))
  }

  /** The sweep of rxq by usbnet_terminate_urbs found nothing left to unlink. */
  function DoSweepDone(s: State): State {
    s.(ctl := s.ctl.(swept := true))
  }

  /** Anything that other work does to these flags. */
  function DoFlags(s: State, halt: bool, kill: bool, memory: bool): State {
    s.(ctl := s.ctl.(halt := halt, kill := kill, memory := memory))
  }

  function DoResumeBegin(s: State): State
    requires s.suspendCount > 0
  {
    s.(ctl := s.ctl.(suspendCount := s.suspendCount - 1, draining := s.suspendCount == 1))
  }

  /** One turn of the drain loop of usbnet_resume.  The entry's state is not written. */
  function DoResumeOne(s: State, ok: bool): State
    requires s.deferred != []
  {
    var u := s.deferred[0];
    var x := Ctx(s, u);
    var s1 := s.(queues := s.queues.(deferred := s.deferred[1..]), hist := s.hist.(settled := s.settled + [(x, ok)]));
    if !ok then FreeBoth(s1.(ctl := s1.ctl.(power := s.power - 1)), x, u)
    else s1.(queues := s1.queues.(txq := s.txq + [x]),
             urbs := s1.urbs.(hostTx := s.hostTx + {u}, refs := s.refs[u := Refs(s, u) + {Core}],
                 holder := s.holder[u := ViaEntry(x)]),
             bufs := s1.bufs.(owner := s.owner[x := OnTxq(Host(u))]),
             hist := s1.hist.(wire := s.wire + [x], resumed := s.resumed[x := Cb(s, x).state]))
  }

  function DoResumeEnd(s: State): State {
    s.(ctl := s.ctl.(draining := false, asleep := false, swept := false))
  }

  /** Events of a completion handler, up to its decision to resubmit. */
  predicate IsCompletion(e: Event) {
    e.RxGiveback? || e.RxClassify? || e.RxUnlink? || e.RxQueueDone? || e.RxDecide?
  }

  function NextCompletion(s: State, e: Event): State
    requires IsCompletion(e) && Enabled(s, e)
  {
    match e
    case RxGiveback(t, u) => DoRxGiveback(s, t, u)
    case RxClassify(t, verdict) => DoRxClassify(s, t, verdict)
    case RxUnlink(t) => DoRxUnlink(s, t)
    case RxQueueDone(t) => DoRxQueueDone(s, t)
    case RxDecide(t, running) => DoRxDecide(s, t, running)
  }

  /** Events of rx_submit. */
  predicate IsSubmission(e: Event) {
    e.AllocRxUrb? || e.RxAlloc? || e.RxLockTest? || e.RxSubmitLocked? || e.RxDropFailed?
  }

  function NextSubmission(s: State, e: Event): State
    requires IsSubmission(e) && Enabled(s, e)
  {
    match e
    case AllocRxUrb(t, u) => DoAllocRxUrb(s, t, u)
    case RxAlloc(t, x, ok) => DoRxAlloc(s, t, x, ok)
    case RxLockTest(t, running) => DoRxLockTest(s, t, running)
    case RxSubmitLocked(t, status) => DoRxSubmitLocked(s, t, status)
    case RxDropFailed(t) => DoRxDropFailed(s, t)
  }

  /** Events of the tasklet and the pause queue. */
  predicate IsTasklet(e: Event) {
    e.BhDequeue? || e.BhDispatch? || e.BhDeliver? || e.PauseReturn?
  }

  function NextTasklet(s: State, e: Event): State
    requires IsTasklet(e) && Enabled(s, e)
  {
    match e
    case BhDequeue(t) => DoBhDequeue(s, t)
    case BhDispatch(t) => DoBhDispatch(s, t)
    case BhDeliver(t, dest) => DoBhDeliver(s, t, dest)
    case PauseReturn(purge) => DoPauseReturn(s, purge)
  }

  predicate IsReceive(e: Event) {
    IsCompletion(e) || IsSubmission(e) || IsTasklet(e)
  }

  function NextReceive(s: State, e: Event): State
    requires IsReceive(e) && Enabled(s, e)
  {
    if IsCompletion(e) then NextCompletion(s, e)
    else if IsSubmission(e) then NextSubmission(s, e)
    else NextTasklet(s, e)
  }

  /** Events of usbnet_start_xmit. */
  predicate IsTransmit(e: Event) {
    e.XmitBegin? || e.XmitLocked? || e.XmitDrop?
  }

  function NextTransmit(s: State, e: Event): State
    requires IsTransmit(e) && Enabled(s, e)
  {
    match e
    case XmitBegin(t, x, left, u) => DoXmitBegin(s, t, x, left, u)
    case XmitLocked(t, pmOk, status) => DoXmitLocked(s, t, pmOk, status)
    case XmitDrop(t) => DoXmitDrop(s, t)
  }

  /** Events of tx_complete. */
  predicate IsSent(e: Event) {
    e.TxGiveback? || e.TxUnlink? || e.TxQueueDone?
  }

  function NextSent(s: State, e: Event): State
    requires IsSent(e) && Enabled(s, e)
  {
    match e
    case TxGiveback(t, u) => DoTxGiveback(s, t, u)
    case TxUnlink(t) => DoTxUnlink(s, t)
    case TxQueueDone(t) => DoTxQueueDone(s, t)
  }

  predicate IsSend(e: Event) {
    IsTransmit(e) || IsSent(e)
  }

  function NextSend(s: State, e: Event): State
    requires IsSend(e) && Enabled(s, e)
  {
    if IsTransmit(e) then NextTransmit(s, e)
    else NextSent(s, e)
  }

  /** Events of unlink_urbs. */
  predicate IsUnlinking(e: Event) {
    e.UnlinkPick? || e.UnlinkPut?
  }

  function NextUnlinking(s: State, e: Event): State
    requires IsUnlinking(e) && Enabled(s, e)
  {
    match e
    case UnlinkPick(t, rx) => DoUnlinkPick(s, t, rx)
    case UnlinkPut(t) => DoUnlinkPut(s, t)
  }

  /** Events of usbnet_suspend, and of work that sets flags. */
  predicate IsSuspending(e: Event) {
    e.Suspend? || e.SweepDone? || e.Flags?
  }

  function NextSuspending(s: State, e: Event): State
    requires IsSuspending(e) && Enabled(s, e)
  {
    match e
    case Suspend(auto) => DoSuspend(s, auto)
    case SweepDone => DoSweepDone(s)
    case Flags(halt, kill, memory) => DoFlags(s, halt, kill, memory)
  }

  /** Events of usbnet_resume. */
  predicate IsResuming(e: Event) {
    e.ResumeBegin? || e.ResumeOne? || e.ResumeEnd?
  }

  function NextResuming(s: State, e: Event): State
    requires IsResuming(e) && Enabled(s, e)
  {
    match e
    case ResumeBegin => DoResumeBegin(s)
    case ResumeOne(ok) => DoResumeOne(s, ok)
    case ResumeEnd => DoResumeEnd(s)
  }

  predicate IsControl(e: Event) {
    IsUnlinking(e) || IsSuspending(e) || IsResuming(e)
  }

  function NextControl(s: State, e: Event): State
    requires IsControl(e) && Enabled(s, e)
  {
    if IsUnlinking(e) then NextUnlinking(s, e)
    else if IsSuspending(e) then NextSuspending(s, e)
    else NextResuming(s, e)
  }

  function Next(s: State, e: Event): State
    requires Enabled(s, e)
  {
    if IsReceive(e) then NextReceive(s, e)
    else if IsSend(e) then NextSend(s, e)
    else NextControl(s, e)
  }

  // ----- runs ------------------------------------------------------------------------------

  const Start: State :=
    State(Bufs(map[], map[]), Urbs(map[], map[], map[], {}, {}), Queues([], [], [], [], []), map[],
          Control(None, false, false, false, false, false, 0, false, 0), History([], [], [], map[], [], [], []))

  /** The state after the events of a run, oldest first; None when some event was not enabled. */
  function Run(s: State, es: seq<Event>): Option<State>
    decreases |es|
  {
    if es == [] then Some(s)
    else if Enabled(s, es[0]) then Run(Next(s, es[0]), es[1..])
    else None
  }

  ghost predicate Leads(s: State, s': State) {
    exists es :: Run(s, es) == Some(s')
  }

  ghost predicate Reachable(s: State) {
    Leads(Start, s)
  }
}
