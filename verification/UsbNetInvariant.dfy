/**
 The inductive invariant of the transfer engine.  Each conjunct is a predicate over just the
 fields it speaks about, so an event that leaves those alone keeps it without argument.
 */
module UsbNetInvariant {
  import opened Basics
  import opened UsbNetModel

  // ----- what a thread is holding ----------------------------------------------------------

  /** The buffer a thread holds off every queue. */
  ghost function HandSkb(l: Local): Option<Skb> {
    match l
    case RxMoving(x, _, _) => Some(x)
    case TxMoving(x) => Some(x)
    case Ready(_, x) => Some(x)
    case Locked(_, x, _) => Some(x)
    case Failed(_, x) => Some(x)
    case BhHas(x) => Some(x)
    case BhRx(x) => Some(x)
    case Xmit(x, _) => Some(x)
    case XmitFailed(x, _) => Some(x)
    case _ => None
  }

  /** The URB whose base reference a thread holds. */
  ghost function HandUrb(l: Local): Option<Urb> {
    match l
    case RxMid(_, _, keep) => keep
    case RxMoving(_, _, keep) => keep
    case RxAfter(_, keep) => keep
    case Submit(u) => Some(u)
    case Ready(u, _) => Some(u)
    case Locked(u, _, _) => Some(u)
    case Failed(u, _) => Some(u)
    case Xmit(_, u) => Some(u)
    case XmitFailed(_, u) => Some(u)
    case _ => None
  }

  /** The buffer, still on rxq, whose completion a thread is handling; likewise for txq. */
  ghost function RxDoing(l: Local): Option<Skb> {
    match l
    case RxTop(_, x) => Some(x)
    case RxMid(x, _, _) => Some(x)
    case _ => None
  }

  ghost function TxDoing(l: Local): Option<Skb> {
    match l
    case TxMid(x) => Some(x)
    case _ => None
  }

  /** A thread that knows a buffer and its URB to point at each other. */
  ghost function Linked(l: Local): Option<(Urb, Skb)> {
    match l
    case RxTop(u, x) => Some((u, x))
    case Ready(u, x) => Some((u, x))
    case Locked(u, x, _) => Some((u, x))
    case Failed(u, x) => Some((u, x))
    case Xmit(x, u) => Some((u, x))
    case XmitFailed(x, u) => Some((u, x))
    case _ => None
  }

  /** The thread is past submission: it is bringing its buffer to, or has it from, the done queue. */
  ghost predicate Completing(l: Local) {
    l.RxMoving? || l.TxMoving? || l.BhHas? || l.BhRx?
  }

  // ----- queues and owners -----------------------------------------------------------------

  ghost predicate RxQueue(rxq: seq<Skb>, owner: map<Skb, Owner>) {
    NoDup(rxq) && forall x :: x in rxq <==> x in owner && owner[x].OnRxq?
  }

  ghost predicate TxQueue(txq: seq<Skb>, owner: map<Skb, Owner>) {
    NoDup(txq) && forall x :: x in txq <==> x in owner && owner[x].OnTxq?
  }

  ghost predicate DoneQueue(done: seq<Skb>, owner: map<Skb, Owner>) {
    NoDup(done) && forall x :: x in done <==> x in owner && owner[x].OnDone?
  }

  ghost predicate PauseQueue(pause: seq<Skb>, owner: map<Skb, Owner>) {
    NoDup(pause) && forall x :: x in pause <==> x in owner && owner[x].OnPause?
  }

  ghost predicate Domains(cb: map<Skb, Entry>, owner: map<Skb, Owner>, ctx: map<Urb, Skb>,
                          refs: map<Urb, set<Ref>>, holder: map<Urb, Holder>) {
    cb.Keys == owner.Keys && refs.Keys == holder.Keys && ctx.Keys <= refs.Keys
  }

  ghost predicate Hands(threads: map<Tid, Local>, owner: map<Skb, Owner>) {
    && (forall t :: t in threads && HandSkb(threads[t]).Some? ==>
          HandSkb(threads[t]).value in owner && owner[HandSkb(threads[t]).value] == InHand(t))
    && (forall x :: x in owner && owner[x].InHand? ==>
          owner[x].t in threads && HandSkb(threads[owner[x].t]) == Some(x))
  }

  ghost predicate RxDoers(threads: map<Tid, Local>, owner: map<Skb, Owner>) {
    && (forall t :: t in threads && RxDoing(threads[t]).Some? ==>
          RxDoing(threads[t]).value in owner && owner[RxDoing(threads[t]).value] == OnRxq(Handler(t)))
    && (forall x :: x in owner && owner[x].OnRxq? && owner[x].why.Handler? ==>
          owner[x].why.t in threads && RxDoing(threads[owner[x].why.t]) == Some(x))
  }

  ghost predicate TxDoers(threads: map<Tid, Local>, owner: map<Skb, Owner>) {
    && (forall t :: t in threads && TxDoing(threads[t]).Some? ==>
          TxDoing(threads[t]).value in owner && owner[TxDoing(threads[t]).value] == OnTxq(Handler(t)))
    && (forall x :: x in owner && owner[x].OnTxq? && owner[x].why.Handler? ==>
          owner[x].why.t in threads && TxDoing(threads[owner[x].why.t]) == Some(x))
  }

  // ----- URBs ------------------------------------------------------------------------------

  ghost predicate UrbHands(threads: map<Tid, Local>, holder: map<Urb, Holder>) {
    && (forall t :: t in threads && HandUrb(threads[t]).Some? ==>
          HandUrb(threads[t]).value in holder && holder[HandUrb(threads[t]).value] == HeldBy(t))
    && (forall u :: u in holder && holder[u].HeldBy? ==>
          holder[u].t in threads && HandUrb(threads[holder[u].t]) == Some(u))
  }

  ghost predicate Links(threads: map<Tid, Local>, cb: map<Skb, Entry>, ctx: map<Urb, Skb>) {
    forall t :: t in threads && Linked(threads[t]).Some? ==>
      var (u, x) := Linked(threads[t]).value;
      x in cb && cb[x].urb == Some(u) && u in ctx && ctx[u] == x
  }

  /** The entry of this buffer holds the reference of the URB it names. */
  ghost predicate EntryHolds(o: Owner, threads: map<Tid, Local>) {
    match o
    case OnRxq(_) => true
    case OnTxq(_) => true
    case OnDone => true
    case InHand(t) => t in threads && Completing(threads[t])
    case _ => false
  }

  ghost predicate ViaEntries(cb: map<Skb, Entry>, owner: map<Skb, Owner>, holder: map<Urb, Holder>,
                             threads: map<Tid, Local>) {
    EntriesHold(cb, owner, holder, threads) && HeldByEntries(cb, owner, holder, threads)
  }

  ghost predicate EntriesHold(cb: map<Skb, Entry>, owner: map<Skb, Owner>, holder: map<Urb, Holder>,
                              threads: map<Tid, Local>) {
    forall x :: x in cb && x in owner && EntryHolds(owner[x], threads) && cb[x].urb.Some? ==>
      cb[x].urb.value in holder && holder[cb[x].urb.value] == ViaEntry(x)
  }

  ghost predicate HeldByEntries(cb: map<Skb, Entry>, owner: map<Skb, Owner>, holder: map<Urb, Holder>,
                                threads: map<Tid, Local>) {
    forall u :: u in holder && holder[u].ViaEntry? ==>
      var x := holder[u].x;
      x in cb && x in owner && cb[x].urb == Some(u) && EntryHolds(owner[x], threads)
  }

  ghost predicate ViaContexts(holder: map<Urb, Holder>, ctx: map<Urb, Skb>) {
    forall u :: u in holder && holder[u].ViaEntry? ==> u in ctx && ctx[u] == holder[u].x
  }

  ghost predicate AnchorList(deferred: seq<Urb>, holder: map<Urb, Holder>) {
    NoDup(deferred) && forall u :: u in deferred <==> u in holder && holder[u].ViaAnchor?
  }

  ghost predicate AnchorLinks(deferred: seq<Urb>, cb: map<Skb, Entry>, owner: map<Skb, Owner>, ctx: map<Urb, Skb>) {
    && (forall u :: u in deferred ==>
          u in ctx && ctx[u] in owner && owner[ctx[u]].OnAnchor? && ctx[u] in cb && cb[ctx[u]].urb == Some(u))
    && (forall x :: x in owner && x in cb && owner[x].OnAnchor? ==>
          cb[x].urb.Some? && cb[x].urb.value in deferred && cb[x].urb.value in ctx && ctx[cb[x].urb.value] == x)
  }

  /** The host controller has exactly the URBs of the queued buffers that no handler completes. */
  ghost predicate HostRx(hostRx: set<Urb>, cb: map<Skb, Entry>, owner: map<Skb, Owner>, ctx: map<Urb, Skb>) {
    && (forall u :: u in hostRx ==>
          u in ctx && ctx[u] in owner && owner[ctx[u]] == OnRxq(Host(u)) && ctx[u] in cb && cb[ctx[u]].urb == Some(u))
    && (forall x :: x in owner && owner[x].OnRxq? && owner[x].why.Host? ==>
          owner[x].why.u in hostRx && owner[x].why.u in ctx && ctx[owner[x].why.u] == x)
  }

  ghost predicate HostTx(hostTx: set<Urb>, cb: map<Skb, Entry>, owner: map<Skb, Owner>, ctx: map<Urb, Skb>) {
    && (forall u :: u in hostTx ==>
          u in ctx && ctx[u] in owner && owner[ctx[u]] == OnTxq(Host(u)) && ctx[u] in cb && cb[ctx[u]].urb == Some(u))
    && (forall x :: x in owner && owner[x].OnTxq? && owner[x].why.Host? ==>
          owner[x].why.u in hostTx && owner[x].why.u in ctx && ctx[owner[x].why.u] == x)
  }

  /** The references counted on a URB are exactly its holders. */
  ghost predicate BaseRefs(refs: map<Urb, set<Ref>>, holder: map<Urb, Holder>) {
    forall u :: u in refs && u in holder ==> (Base in refs[u] <==> !holder[u].Gone?)
  }

  ghost predicate CoreRefs(refs: map<Urb, set<Ref>>, hostRx: set<Urb>, hostTx: set<Urb>) {
    && (forall u :: u in refs ==> (Core in refs[u] <==> u in hostRx || u in hostTx))
    && (forall u :: u in hostRx || u in hostTx ==> u in refs)
  }

  ghost predicate PinRefs(refs: map<Urb, set<Ref>>, threads: map<Tid, Local>) {
    && (forall u, t :: u in refs && Pin(t) in refs[u] ==>
          t in threads && threads[t].Unlinking? && threads[t].pinned == Some(u))
    && (forall t :: t in threads && threads[t].Unlinking? && threads[t].pinned.Some? ==>
          threads[t].pinned.value in refs && Pin(t) in refs[threads[t].pinned.value])
  }

  // ----- entries ---------------------------------------------------------------------------

  /** What the tasklet may find in the entry of a buffer on the done queue. */
  ghost predicate Finished(e: Entry) {
    match e.state
    case RxDone => e.urb.None?
    case RxCleanup => true
    case TxDone => e.urb.Some?
    case _ => false
  }

  ghost predicate DoneStates(cb: map<Skb, Entry>, owner: map<Skb, Owner>) {
    && (forall x :: x in cb && x in owner && owner[x].OnDone? ==> Finished(cb[x]))
    && (forall x :: x in cb && x in owner && owner[x].OnTxq? ==> cb[x].urb.Some?)
    && (forall x :: x in cb && x in owner && owner[x].OnPause? ==> cb[x].urb.None?)
  }

  ghost predicate LocalStates(threads: map<Tid, Local>, cb: map<Skb, Entry>) {
    forall t :: t in threads ==> LocalState(threads[t], cb)
  }

  ghost predicate LocalState(l: Local, cb: map<Skb, Entry>) {
    match l
    case RxMid(x, next, keep) =>
      && (next == RxDone || next == RxCleanup)
      && x in cb && (next == RxDone ==> cb[x].urb.None?) && (keep.Some? ==> cb[x].urb.None?)
    case RxMoving(x, _, keep) => x in cb && Finished(cb[x]) && (keep.Some? ==> cb[x].urb.None?)
    case TxMoving(x) => x in cb && Finished(cb[x])
    case BhHas(x) => x in cb && Finished(cb[x])
    case BhRx(x) => x in cb && cb[x] == Entry(RxCleanup, None)
    case _ => true
  }

  // ----- counters, locks, order ------------------------------------------------------------

  ghost predicate Freeing(owner: map<Skb, Owner>, holder: map<Urb, Holder>, skbFrees: seq<Skb>, urbFrees: seq<Urb>) {
    && NoDup(skbFrees) && NoDup(urbFrees)
    && (forall x :: x in skbFrees <==> x in owner && owner[x].Freed?)
    && (forall u :: u in urbFrees <==> u in holder && holder[u].Gone?)
    && (forall x :: x in owner ==> !owner[x].Leaked?)
  }

  ghost predicate RxLock(rxLock: Option<Tid>, threads: map<Tid, Local>) {
    forall t :: rxLock == Some(t) <==> t in threads && threads[t].Locked?
  }

  ghost predicate Sleeping(asleep: bool, draining: bool, suspendCount: nat, swept: bool, deferred: seq<Urb>) {
    && (!asleep ==> deferred == [] && !draining && suspendCount == 0 && !swept)
    && (asleep ==> draining || suspendCount > 0)
    && (draining ==> suspendCount == 0)
  }

  ghost predicate Power(power: int, hostTx: set<Urb>, deferred: seq<Urb>) {
    power == |hostTx| + |deferred|
  }

  ghost function Names(settled: seq<(Skb, bool)>): seq<Skb> {
    seq(|settled|, i requires 0 <= i < |settled| => settled[i].0)
  }

  ghost function Sent(settled: seq<(Skb, bool)>): seq<Skb> {
    if settled == [] then []
    else
      var last := settled[|settled| - 1];
      Sent(settled[..|settled| - 1]) + (if last.1 then [last.0] else [])
  }

  ghost function Waiting(deferred: seq<Urb>, ctx: map<Urb, Skb>): seq<Skb> {
    seq(|deferred|, i requires 0 <= i < |deferred| => if deferred[i] in ctx then ctx[deferred[i]] else 0)
  }

  /** Packets are settled in the order they were accepted; those that wait are the newest. */
  ghost predicate Ordered(accepted: seq<Skb>, settled: seq<(Skb, bool)>, wire: seq<Skb>,
                          deferred: seq<Urb>, ctx: map<Urb, Skb>) {
    && accepted == Names(settled) + Waiting(deferred, ctx)
    && wire == Sent(settled)
  }

  ghost predicate AcceptedOnce(accepted: seq<Skb>, owner: map<Skb, Owner>, threads: map<Tid, Local>) {
    && NoDup(accepted)
    && (forall x :: x in accepted ==> x in owner)
    && (forall t :: t in threads && threads[t].Xmit? ==> threads[t].x !in accepted)
  }

  // ----- unlinking -------------------------------------------------------------------------

  /** The buffer was submitted: it is queued, or its completion is under way or over. */
  ghost predicate PastSubmission(o: Owner, threads: map<Tid, Local>) {
    match o
    case OnAnchor => false
    case InHand(t) => t in threads && Completing(threads[t])
    case _ => true
  }

  /** The buffer's transfer is over and its entry has been queued on done. */
  ghost predicate Retired(o: Owner, threads: map<Tid, Local>) {
    match o
    case OnDone => true
    case OnPause => true
    case WithStack => true
    case Freed => true
    case InHand(t) => t in threads && (threads[t].BhHas? || threads[t].BhRx?)
    case _ => false
  }

  /** A pinned URB keeps pointing at the buffer whose entry the unlinker marked. */
  ghost predicate Pins(threads: map<Tid, Local>, ctx: map<Urb, Skb>, unlinkCalls: seq<Skb>) {
    forall t :: t in threads && threads[t].Unlinking? ==>
      && threads[t].x in unlinkCalls
      && (threads[t].pinned.Some? ==> threads[t].pinned.value in ctx && ctx[threads[t].pinned.value] == threads[t].x)
  }

  /** A completion whose entry an unlinker marked knows it, so its URB will not be resubmitted. */
  ghost predicate Keeps(l: Local, ctx: map<Urb, Skb>, owner: map<Skb, Owner>, threads: map<Tid, Local>,
                        unlinkCalls: seq<Skb>) {
    match l
    case RxMid(x, _, keep) => keep.Some? ==> keep.value in ctx && ctx[keep.value] == x
    case RxMoving(x, was, keep) =>
      && (x in unlinkCalls ==> was == UnlinkStart)
      && (keep.Some? ==> keep.value in ctx && ctx[keep.value] == x)
    case RxAfter(was, keep) =>
      keep.Some? ==>
        && keep.value in ctx && ctx[keep.value] in owner && Retired(owner[ctx[keep.value]], threads)
        && (ctx[keep.value] in unlinkCalls ==> was == UnlinkStart)
    case Submit(u) =>
      u in ctx ==> ctx[u] in owner && Retired(owner[ctx[u]], threads) && ctx[u] !in unlinkCalls
    case _ => true
  }

  ghost predicate Keepers(threads: map<Tid, Local>, ctx: map<Urb, Skb>, owner: map<Skb, Owner>, unlinkCalls: seq<Skb>) {
    forall t :: t in threads ==> Keeps(threads[t], ctx, owner, threads, unlinkCalls)
  }

  ghost predicate Submitted(unlinkCalls: seq<Skb>, resumed: map<Skb, SkbState>, owner: map<Skb, Owner>,
      threads: map<Tid, Local>) {
    && NoDup(unlinkCalls)
    && (forall x :: x in unlinkCalls ==> x in owner && PastSubmission(owner[x], threads))
    && (forall x :: x in resumed ==> x in owner && PastSubmission(owner[x], threads) && !owner[x].OnRxq?)
  }

  /** unlink_start marks the entries that were unlinked, and the resumed ones that came with it. */
  ghost predicate Marks(unlinkCalls: seq<Skb>, resumed: map<Skb, SkbState>, cb: map<Skb, Entry>, owner: map<Skb,
                        Owner>) {
    && (forall x :: x in owner && x in cb && owner[x].OnRxq? ==> (cb[x].state == UnlinkStart <==> x in unlinkCalls))
    && (forall x :: x in owner && x in cb && owner[x].OnTxq? ==>
          (cb[x].state == UnlinkStart <==> x in unlinkCalls || (x in resumed && resumed[x] == UnlinkStart)))
  }

  ghost predicate Swept(swept: bool, asleep: bool, cb: map<Skb, Entry>, owner: map<Skb, Owner>, threads: map<Tid,
                        Local>) {
    swept ==>
      && asleep
      && (forall x :: x in owner && x in cb && owner[x].OnRxq? ==> cb[x].state == UnlinkStart)
      && (forall t :: t in threads && threads[t].Locked? ==> !threads[t].go)
  }

  // ----- all together ----------------------------------------------------------------------

  /** Who owns each buffer and what its entry says. */
  ghost predicate Buffers(s: State) {
    && RxQueue(s.rxq, s.owner) && TxQueue(s.txq, s.owner) && DoneQueue(s.done, s.owner) && PauseQueue(s.pause, s.owner)
    && Domains(s.cb, s.owner, s.ctx, s.refs, s.holder)
    && Hands(s.threads, s.owner) && RxDoers(s.threads, s.owner) && TxDoers(s.threads, s.owner)
    && DoneStates(s.cb, s.owner) && LocalStates(s.threads, s.cb)
    && Freeing(s.owner, s.holder, s.skbFrees, s.urbFrees)
  }

  /** Who holds each URB and where it is. */
  ghost predicate Transfers(s: State) {
    && UrbHands(s.threads, s.holder) && Links(s.threads, s.cb, s.ctx)
    && ViaEntries(s.cb, s.owner, s.holder, s.threads) && ViaContexts(s.holder, s.ctx)
    && AnchorList(s.deferred, s.holder) && AnchorLinks(s.deferred, s.cb, s.owner, s.ctx)
    && HostRx(s.hostRx, s.cb, s.owner, s.ctx) && HostTx(s.hostTx, s.cb, s.owner, s.ctx)
    && BaseRefs(s.refs, s.holder) && CoreRefs(s.refs, s.hostRx, s.hostTx) && PinRefs(s.refs, s.threads)
  }

  /** Locks, counters, the order of transmission, and the marks of unlinkers. */
  ghost predicate Records(s: State) {
    && RxLock(s.rxLock, s.threads)
    && Sleeping(s.asleep, s.draining, s.suspendCount, s.swept, s.deferred)
    && Power(s.power, s.hostTx, s.deferred)
    && Ordered(s.accepted, s.settled, s.wire, s.deferred, s.ctx) && AcceptedOnce(s.accepted, s.owner, s.threads)
    && Pins(s.threads, s.ctx, s.unlinkCalls) && Keepers(s.threads, s.ctx, s.owner, s.unlinkCalls)
    && Submitted(s.unlinkCalls, s.resumed, s.owner, s.threads)
    && Marks(s.unlinkCalls, s.resumed, s.cb, s.owner)
    && Swept(s.swept, s.asleep, s.cb, s.owner, s.threads)
  }

  ghost predicate Inv(s: State) {
    Buffers(s) && Transfers(s) && Records(s)
  }

  lemma StartInv()
    ensures Inv(Start)
  {
  }
}
