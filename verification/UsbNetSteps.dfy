/** Each event of the transfer engine is local. */
module UsbNetSteps {
  import opened Basics
  import opened UsbNetModel
  import opened UsbNetInvariant
  import opened UsbNetLocality
  import opened UsbNetFocus

  /** Nothing else changes and the books are kept. */
  ghost predicate Framed(s: State, s': State, t: Option<Tid>, x: Option<Skb>, u: Option<Urb>) {
    Moves(s, s', t, x, u) && Booked(s, s', t, x, u)
  }

  ghost predicate Booked(s: State, s': State, t: Option<Tid>, x: Option<Skb>, u: Option<Urb>) {
    && Private(s, t, x, u) && Consistent(s, s', t, x, u)
    && Sleeping(s'.asleep, s'.draining, s'.suspendCount, s'.swept, s'.deferred)
    && Power(s'.power, s'.hostTx, s'.deferred)
  }

  ghost predicate Settled(s': State, t: Option<Tid>, x: Option<Skb>, u: Option<Urb>) {
    ThreadSettled(s', t, x, u) && BufferSettled(s', t, x, u) && UrbSettled(s', t, x, u)
  }

  lemma RxGivebackFramed(s: State, t: Tid, u: Urb)
    requires t !in s.threads && u in s.hostRx && u !in s.hostTx && u in s.ctx
    requires Focus(s, Some(t), Some(s.ctx[u]), Some(u))
    ensures Framed(s, DoRxGiveback(s, t, u), Some(t), Some(s.ctx[u]), Some(u))
  {
  }

  lemma RxGivebackSettled(s: State, t: Tid, u: Urb)
    requires t !in s.threads && u in s.hostRx && u !in s.hostTx && u in s.ctx
    requires Focus(s, Some(t), Some(s.ctx[u]), Some(u))
    ensures Settled(DoRxGiveback(s, t, u), Some(t), Some(s.ctx[u]), Some(u))
  {
  }

  lemma RxBlockFramed(s: State, t: Tid, stall: bool)
    requires t in s.threads && s.threads[t].RxTop?
    requires Focus(s, Some(t), SkbOf(s.threads[t]), UrbOf(s, s.threads[t]))
    ensures Framed(s, DoRxClassify(s, t, Block(stall)), Some(t), SkbOf(s.threads[t]), UrbOf(s, s.threads[t]))
  {
  }

  lemma RxBlockSettled(s: State, t: Tid, stall: bool)
    requires t in s.threads && s.threads[t].RxTop?
    requires Focus(s, Some(t), SkbOf(s.threads[t]), UrbOf(s, s.threads[t]))
    ensures Settled(DoRxClassify(s, t, Block(stall)), Some(t), SkbOf(s.threads[t]), UrbOf(s, s.threads[t]))
  {
  }

  lemma RxKeepFramed(s: State, t: Tid, verdict: RxStatus)
    requires t in s.threads && s.threads[t].RxTop? && !verdict.Block?
    requires Focus(s, Some(t), SkbOf(s.threads[t]), UrbOf(s, s.threads[t]))
    ensures Framed(s, DoRxClassify(s, t, verdict), Some(t), SkbOf(s.threads[t]), UrbOf(s, s.threads[t]))
  {
  }

  lemma RxKeepSettled(s: State, t: Tid, verdict: RxStatus)
    requires t in s.threads && s.threads[t].RxTop? && !verdict.Block?
    requires Focus(s, Some(t), SkbOf(s.threads[t]), UrbOf(s, s.threads[t]))
    ensures Settled(DoRxClassify(s, t, verdict), Some(t), SkbOf(s.threads[t]), UrbOf(s, s.threads[t]))
  {
  }

  lemma RxUnlinkFramed(s: State, t: Tid)
    requires t in s.threads && s.threads[t].RxMid? && s.rxLock.None?
    requires Focus(s, Some(t), SkbOf(s.threads[t]), UrbOf(s, s.threads[t]))
    ensures Framed(s, DoRxUnlink(s, t), Some(t), SkbOf(s.threads[t]), UrbOf(s, s.threads[t]))
  {
  }

  lemma RxUnlinkSettled(s: State, t: Tid)
    requires t in s.threads && s.threads[t].RxMid? && s.rxLock.None?
    requires Focus(s, Some(t), SkbOf(s.threads[t]), UrbOf(s, s.threads[t]))
    ensures Settled(DoRxUnlink(s, t), Some(t), SkbOf(s.threads[t]), UrbOf(s, s.threads[t]))
  {
  }

  lemma RxQueueDoneFramed(s: State, t: Tid)
    requires t in s.threads && s.threads[t].RxMoving?
    requires Focus(s, Some(t), SkbOf(s.threads[t]), UrbOf(s, s.threads[t]))
    ensures Framed(s, DoRxQueueDone(s, t), Some(t), SkbOf(s.threads[t]), UrbOf(s, s.threads[t]))
  {
  }

  lemma RxQueueDoneSettled(s: State, t: Tid)
    requires t in s.threads && s.threads[t].RxMoving?
    requires Focus(s, Some(t), SkbOf(s.threads[t]), UrbOf(s, s.threads[t]))
    ensures Settled(DoRxQueueDone(s, t), Some(t), SkbOf(s.threads[t]), UrbOf(s, s.threads[t]))
  {
  }

  lemma RxResubmitLocal(s: State, t: Tid)
    requires t in s.threads && s.threads[t].RxAfter? && s.threads[t].keep.Some? && s.threads[t].was != UnlinkStart
    requires Focus(s, Some(t), SkbOf(s.threads[t]), UrbOf(s, s.threads[t]))
    ensures Framed(s, Goto(s, t, Submit(s.threads[t].keep.value)), Some(t), SkbOf(s.threads[t]), UrbOf(s, s.threads[t]))
    ensures Settled(Goto(s, t, Submit(s.threads[t].keep.value)), Some(t), SkbOf(s.threads[t]), UrbOf(s, s.threads[t]))
  {
  }

  lemma RxGiveUpFramed(s: State, t: Tid)
    requires t in s.threads && s.threads[t].RxAfter? && s.threads[t].keep.Some?
    requires Focus(s, Some(t), SkbOf(s.threads[t]), UrbOf(s, s.threads[t]))
    ensures Framed(s, End(FreeUrb(s, s.threads[t].keep.value), t), Some(t), SkbOf(s.threads[t]), UrbOf(s, s.threads[t]))
  {
  }

  lemma RxGiveUpSettled(s: State, t: Tid)
    requires t in s.threads && s.threads[t].RxAfter? && s.threads[t].keep.Some?
    requires Focus(s, Some(t), SkbOf(s.threads[t]), UrbOf(s, s.threads[t]))
    ensures Settled(End(FreeUrb(s, s.threads[t].keep.value), t), Some(t), SkbOf(s.threads[t]), UrbOf(s, s.threads[t]))
  {
  }

  lemma RxAfterEndLocal(s: State, t: Tid)
    requires t in s.threads && s.threads[t].RxAfter? && s.threads[t].keep.None?
    requires Focus(s, Some(t), SkbOf(s.threads[t]), UrbOf(s, s.threads[t]))
    ensures Framed(s, End(s, t), Some(t), SkbOf(s.threads[t]), UrbOf(s, s.threads[t]))
    ensures Settled(End(s, t), Some(t), SkbOf(s.threads[t]), UrbOf(s, s.threads[t]))
  {
  }

  lemma AllocRxUrbFramed(s: State, t: Tid, u: Urb)
    requires t !in s.threads && u !in s.refs
    requires Focus(s, Some(t), None, Some(u))
    ensures Framed(s, DoAllocRxUrb(s, t, u), Some(t), None, Some(u))
  {
  }

  lemma AllocRxUrbSettled(s: State, t: Tid, u: Urb)
    requires t !in s.threads && u !in s.refs
    requires Focus(s, Some(t), None, Some(u))
    ensures Settled(DoAllocRxUrb(s, t, u), Some(t), None, Some(u))
  {
  }

  lemma RxAllocFailFramed(s: State, t: Tid, memory: bool)
    requires t in s.threads && s.threads[t].Submit?
    requires Focus(s, Some(t), SkbOf(s.threads[t]), UrbOf(s, s.threads[t]))
    ensures Framed(s, End(FreeUrb(s.(ctl := s.ctl.(memory := memory)), s.threads[t].u), t),
                   Some(t), SkbOf(s.threads[t]), UrbOf(s, s.threads[t]))
  {
  }

  lemma RxAllocFailSettled(s: State, t: Tid, memory: bool)
    requires t in s.threads && s.threads[t].Submit?
    requires Focus(s, Some(t), SkbOf(s.threads[t]), UrbOf(s, s.threads[t]))
    ensures Settled(End(FreeUrb(s.(ctl := s.ctl.(memory := memory)), s.threads[t].u), t),
                    Some(t), SkbOf(s.threads[t]), UrbOf(s, s.threads[t]))
  {
  }

  lemma RxAllocOkMoves(s: State, t: Tid, x: Skb)
    requires t in s.threads && s.threads[t].Submit? && !s.kill && x !in s.cb
    requires Focus(s, Some(t), SkbOf(s.threads[t]), UrbOf(s, s.threads[t]))
    requires Focus(s, None, Some(x), None)
    ensures Moves(s, DoRxAlloc(s, t, x, true), Some(t), Some(x), Some(s.threads[t].u))
  {
  }

  lemma RxAllocOkBooked(s: State, t: Tid, x: Skb)
    requires t in s.threads && s.threads[t].Submit? && !s.kill && x !in s.cb
    requires Focus(s, Some(t), SkbOf(s.threads[t]), UrbOf(s, s.threads[t]))
    requires Focus(s, None, Some(x), None)
    ensures Booked(s, DoRxAlloc(s, t, x, true), Some(t), Some(x), Some(s.threads[t].u))
  {
  }

  lemma RxAllocOkFramed(s: State, t: Tid, x: Skb)
    requires t in s.threads && s.threads[t].Submit? && !s.kill && x !in s.cb
    requires Focus(s, Some(t), SkbOf(s.threads[t]), UrbOf(s, s.threads[t]))
    requires Focus(s, None, Some(x), None)
    ensures Framed(s, DoRxAlloc(s, t, x, true), Some(t), Some(x), Some(s.threads[t].u))
  {
    RxAllocOkMoves(s, t, x);
    RxAllocOkBooked(s, t, x);
  }

  lemma RxAllocOkThread(s: State, t: Tid, x: Skb)
    requires t in s.threads && s.threads[t].Submit? && !s.kill && x !in s.cb
    requires Focus(s, Some(t), SkbOf(s.threads[t]), UrbOf(s, s.threads[t]))
    requires Focus(s, None, Some(x), None)
    ensures ThreadSettled(DoRxAlloc(s, t, x, true), Some(t), Some(x), Some(s.threads[t].u))
  {
  }

  lemma RxAllocOkBuffer(s: State, t: Tid, x: Skb)
    requires t in s.threads && s.threads[t].Submit? && !s.kill && x !in s.cb
    requires Focus(s, Some(t), SkbOf(s.threads[t]), UrbOf(s, s.threads[t]))
    requires Focus(s, None, Some(x), None)
    ensures BufferSettled(DoRxAlloc(s, t, x, true), Some(t), Some(x), Some(s.threads[t].u))
  {
  }

  lemma RxAllocOkUrb(s: State, t: Tid, x: Skb)
    requires t in s.threads && s.threads[t].Submit? && !s.kill && x !in s.cb
    requires Focus(s, Some(t), SkbOf(s.threads[t]), UrbOf(s, s.threads[t]))
    requires Focus(s, None, Some(x), None)
    ensures UrbSettled(DoRxAlloc(s, t, x, true), Some(t), Some(x), Some(s.threads[t].u))
  {
  }

  lemma RxAllocOkSettled(s: State, t: Tid, x: Skb)
    requires t in s.threads && s.threads[t].Submit? && !s.kill && x !in s.cb
    requires Focus(s, Some(t), SkbOf(s.threads[t]), UrbOf(s, s.threads[t]))
    requires Focus(s, None, Some(x), None)
    ensures Settled(DoRxAlloc(s, t, x, true), Some(t), Some(x), Some(s.threads[t].u))
  {
    RxAllocOkThread(s, t, x);
    RxAllocOkBuffer(s, t, x);
    RxAllocOkUrb(s, t, x);
  }

  lemma RxLockTestFramed(s: State, t: Tid, running: bool)
    requires t in s.threads && s.threads[t].Ready? && s.rxLock.None?
    requires Focus(s, Some(t), SkbOf(s.threads[t]), UrbOf(s, s.threads[t]))
    ensures Framed(s, DoRxLockTest(s, t, running), Some(t), SkbOf(s.threads[t]), UrbOf(s, s.threads[t]))
  {
  }

  lemma RxLockTestSettled(s: State, t: Tid, running: bool)
    requires t in s.threads && s.threads[t].Ready? && s.rxLock.None?
    requires Focus(s, Some(t), SkbOf(s.threads[t]), UrbOf(s, s.threads[t]))
    ensures Settled(DoRxLockTest(s, t, running), Some(t), SkbOf(s.threads[t]), UrbOf(s, s.threads[t]))
  {
  }

  lemma RxAcceptedMoves(s: State, t: Tid)
    requires t in s.threads && s.threads[t].Locked? && s.threads[t].go
    requires Focus(s, Some(t), SkbOf(s.threads[t]), UrbOf(s, s.threads[t]))
    ensures Moves(s, DoRxSubmitLocked(s, t, Accepted), Some(t), SkbOf(s.threads[t]), UrbOf(s, s.threads[t]))
  {
  }

  lemma RxAcceptedBooked(s: State, t: Tid)
    requires t in s.threads && s.threads[t].Locked? && s.threads[t].go
    requires Focus(s, Some(t), SkbOf(s.threads[t]), UrbOf(s, s.threads[t]))
    ensures Booked(s, DoRxSubmitLocked(s, t, Accepted), Some(t), SkbOf(s.threads[t]), UrbOf(s, s.threads[t]))
  {
  }

  lemma RxAcceptedFramed(s: State, t: Tid)
    requires t in s.threads && s.threads[t].Locked? && s.threads[t].go
    requires Focus(s, Some(t), SkbOf(s.threads[t]), UrbOf(s, s.threads[t]))
    ensures Framed(s, DoRxSubmitLocked(s, t, Accepted), Some(t), SkbOf(s.threads[t]), UrbOf(s, s.threads[t]))
  {
    RxAcceptedMoves(s, t);
    RxAcceptedBooked(s, t);
  }

  lemma RxAcceptedSettled(s: State, t: Tid)
    requires t in s.threads && s.threads[t].Locked? && s.threads[t].go
    requires Focus(s, Some(t), SkbOf(s.threads[t]), UrbOf(s, s.threads[t]))
    ensures Settled(DoRxSubmitLocked(s, t, Accepted), Some(t), SkbOf(s.threads[t]), UrbOf(s, s.threads[t]))
  {
  }

  lemma RxRefusedLocal(s: State, t: Tid, halt: bool, memory: bool)
    requires t in s.threads && s.threads[t].Locked?
    requires Focus(s, Some(t), SkbOf(s.threads[t]), UrbOf(s, s.threads[t]))
    ensures Framed(s, Goto(s.(ctl := s.ctl.(rxLock := None, halt := halt, memory := memory)), t,
                           Failed(s.threads[t].u, s.threads[t].x)),
                   Some(t), SkbOf(s.threads[t]), UrbOf(s, s.threads[t]))
    ensures Settled(Goto(s.(ctl := s.ctl.(rxLock := None, halt := halt, memory := memory)), t,
                         Failed(s.threads[t].u, s.threads[t].x)),
                    Some(t), SkbOf(s.threads[t]), UrbOf(s, s.threads[t]))
  {
  }

  lemma RxDropFailedMoves(s: State, t: Tid)
    requires t in s.threads && s.threads[t].Failed?
    requires Focus(s, Some(t), SkbOf(s.threads[t]), UrbOf(s, s.threads[t]))
    ensures Moves(s, DoRxDropFailed(s, t), Some(t), SkbOf(s.threads[t]), UrbOf(s, s.threads[t]))
  {
  }

  lemma RxDropFailedBooked(s: State, t: Tid)
    requires t in s.threads && s.threads[t].Failed?
    requires Focus(s, Some(t), SkbOf(s.threads[t]), UrbOf(s, s.threads[t]))
    ensures Booked(s, DoRxDropFailed(s, t), Some(t), SkbOf(s.threads[t]), UrbOf(s, s.threads[t]))
  {
  }

  lemma RxDropFailedFramed(s: State, t: Tid)
    requires t in s.threads && s.threads[t].Failed?
    requires Focus(s, Some(t), SkbOf(s.threads[t]), UrbOf(s, s.threads[t]))
    ensures Framed(s, DoRxDropFailed(s, t), Some(t), SkbOf(s.threads[t]), UrbOf(s, s.threads[t]))
  {
    RxDropFailedMoves(s, t);
    RxDropFailedBooked(s, t);
  }

  lemma RxDropFailedSettled(s: State, t: Tid)
    requires t in s.threads && s.threads[t].Failed?
    requires Focus(s, Some(t), SkbOf(s.threads[t]), UrbOf(s, s.threads[t]))
    ensures Settled(DoRxDropFailed(s, t), Some(t), SkbOf(s.threads[t]), UrbOf(s, s.threads[t]))
  {
  }

  lemma BhDequeueFramed(s: State, t: Tid)
    requires t !in s.threads && s.done != [] && s.done[0] in s.cb
    requires Focus(s, Some(t), Some(s.done[0]), s.cb[s.done[0]].urb)
    ensures Framed(s, DoBhDequeue(s, t), Some(t), Some(s.done[0]), s.cb[s.done[0]].urb)
  {
  }

  lemma BhDequeueSettled(s: State, t: Tid)
    requires t !in s.threads && s.done != [] && s.done[0] in s.cb
    requires Focus(s, Some(t), Some(s.done[0]), s.cb[s.done[0]].urb)
    ensures Settled(DoBhDequeue(s, t), Some(t), Some(s.done[0]), s.cb[s.done[0]].urb)
  {
  }

  lemma BhReceivedFramed(s: State, t: Tid)
    requires t in s.threads && s.threads[t].BhHas? && Cb(s, s.threads[t].x).state == RxDone
    requires Focus(s, Some(t), SkbOf(s.threads[t]), UrbOf(s, s.threads[t]))
    ensures Framed(s,
                   Goto(s.(bufs := s.bufs.(cb := s.cb[s.threads[t].x := Cb(s, s.threads[t].x).(state := RxCleanup)])),
                        t, BhRx(s.threads[t].x)),
                   Some(t), SkbOf(s.threads[t]), UrbOf(s, s.threads[t]))
  {
  }

  lemma BhReceivedSettled(s: State, t: Tid)
    requires t in s.threads && s.threads[t].BhHas? && Cb(s, s.threads[t].x).state == RxDone
    requires Focus(s, Some(t), SkbOf(s.threads[t]), UrbOf(s, s.threads[t]))
    ensures Settled(Goto(s.(bufs := s.bufs.(cb := s.cb[s.threads[t].x := Cb(s, s.threads[t].x).(state := RxCleanup)])),
                        t, BhRx(s.threads[t].x)),
                    Some(t), SkbOf(s.threads[t]), UrbOf(s, s.threads[t]))
  {
  }

  lemma BhFreeBothRecords(s: State, t: Tid)
    requires t in s.threads && s.threads[t].BhHas? && Cb(s, s.threads[t].x).urb.Some?
    requires Focus(s, Some(t), SkbOf(s.threads[t]), UrbOf(s, s.threads[t]))
    ensures SameRecords(s, End(FreeBoth(s, s.threads[t].x, Cb(s, s.threads[t].x).urb.value), t),
                   Some(t), SkbOf(s.threads[t]), UrbOf(s, s.threads[t]))
  {
  }

  lemma BhFreeBothQueues(s: State, t: Tid)
    requires t in s.threads && s.threads[t].BhHas? && Cb(s, s.threads[t].x).urb.Some?
    requires Focus(s, Some(t), SkbOf(s.threads[t]), UrbOf(s, s.threads[t]))
    ensures SameQueues(s, End(FreeBoth(s, s.threads[t].x, Cb(s, s.threads[t].x).urb.value), t),
                   Some(t), SkbOf(s.threads[t]), UrbOf(s, s.threads[t]))
  {
  }

  lemma BhFreeBothMoves(s: State, t: Tid)
    requires t in s.threads && s.threads[t].BhHas? && Cb(s, s.threads[t].x).urb.Some?
    requires Focus(s, Some(t), SkbOf(s.threads[t]), UrbOf(s, s.threads[t]))
    ensures Moves(s, End(FreeBoth(s, s.threads[t].x, Cb(s, s.threads[t].x).urb.value), t),
                   Some(t), SkbOf(s.threads[t]), UrbOf(s, s.threads[t]))
  {
    BhFreeBothRecords(s, t);
    BhFreeBothQueues(s, t);
  }

  lemma BhFreeBothBooked(s: State, t: Tid)
    requires t in s.threads && s.threads[t].BhHas? && Cb(s, s.threads[t].x).urb.Some?
    requires Focus(s, Some(t), SkbOf(s.threads[t]), UrbOf(s, s.threads[t]))
    ensures Booked(s, End(FreeBoth(s, s.threads[t].x, Cb(s, s.threads[t].x).urb.value), t),
                   Some(t), SkbOf(s.threads[t]), UrbOf(s, s.threads[t]))
  {
  }

  lemma BhFreeBothFramed(s: State, t: Tid)
    requires t in s.threads && s.threads[t].BhHas? && Cb(s, s.threads[t].x).urb.Some?
    requires Focus(s, Some(t), SkbOf(s.threads[t]), UrbOf(s, s.threads[t]))
    ensures Framed(s, End(FreeBoth(s, s.threads[t].x, Cb(s, s.threads[t].x).urb.value), t),
                   Some(t), SkbOf(s.threads[t]), UrbOf(s, s.threads[t]))
  {
    BhFreeBothMoves(s, t);
    BhFreeBothBooked(s, t);
  }

  lemma BhFreeBothSettled(s: State, t: Tid)
    requires t in s.threads && s.threads[t].BhHas? && Cb(s, s.threads[t].x).urb.Some?
    requires Focus(s, Some(t), SkbOf(s.threads[t]), UrbOf(s, s.threads[t]))
    ensures Settled(End(FreeBoth(s, s.threads[t].x, Cb(s, s.threads[t].x).urb.value), t),
                    Some(t), SkbOf(s.threads[t]), UrbOf(s, s.threads[t]))
  {
  }

  lemma BhFreeBufferFramed(s: State, t: Tid)
    requires t in s.threads && s.threads[t].BhHas? && Cb(s, s.threads[t].x).urb.None?
    requires Focus(s, Some(t), SkbOf(s.threads[t]), UrbOf(s, s.threads[t]))
    ensures Framed(s, End(FreeSkb(s, s.threads[t].x), t), Some(t), SkbOf(s.threads[t]), UrbOf(s, s.threads[t]))
  {
  }

  lemma BhFreeBufferSettled(s: State, t: Tid)
    requires t in s.threads && s.threads[t].BhHas? && Cb(s, s.threads[t].x).urb.None?
    requires Focus(s, Some(t), SkbOf(s.threads[t]), UrbOf(s, s.threads[t]))
    ensures Settled(End(FreeSkb(s, s.threads[t].x), t), Some(t), SkbOf(s.threads[t]), UrbOf(s, s.threads[t]))
  {
  }

  lemma BhToStackFramed(s: State, t: Tid)
    requires t in s.threads && s.threads[t].BhRx?
    requires Focus(s, Some(t), SkbOf(s.threads[t]), UrbOf(s, s.threads[t]))
    ensures Framed(s, DoBhDeliver(s, t, ToStack), Some(t), SkbOf(s.threads[t]), UrbOf(s, s.threads[t]))
  {
  }

  lemma BhToStackSettled(s: State, t: Tid)
    requires t in s.threads && s.threads[t].BhRx?
    requires Focus(s, Some(t), SkbOf(s.threads[t]), UrbOf(s, s.threads[t]))
    ensures Settled(DoBhDeliver(s, t, ToStack), Some(t), SkbOf(s.threads[t]), UrbOf(s, s.threads[t]))
  {
  }

  lemma BhToPauseFramed(s: State, t: Tid)
    requires t in s.threads && s.threads[t].BhRx?
    requires Focus(s, Some(t), SkbOf(s.threads[t]), UrbOf(s, s.threads[t]))
    ensures Framed(s, DoBhDeliver(s, t, ToPause), Some(t), SkbOf(s.threads[t]), UrbOf(s, s.threads[t]))
  {
  }

  lemma BhToPauseSettled(s: State, t: Tid)
    requires t in s.threads && s.threads[t].BhRx?
    requires Focus(s, Some(t), SkbOf(s.threads[t]), UrbOf(s, s.threads[t]))
    ensures Settled(DoBhDeliver(s, t, ToPause), Some(t), SkbOf(s.threads[t]), UrbOf(s, s.threads[t]))
  {
  }

  lemma BhToDoneFramed(s: State, t: Tid)
    requires t in s.threads && s.threads[t].BhRx?
    requires Focus(s, Some(t), SkbOf(s.threads[t]), UrbOf(s, s.threads[t]))
    ensures Framed(s, DoBhDeliver(s, t, ToDone), Some(t), SkbOf(s.threads[t]), UrbOf(s, s.threads[t]))
  {
  }

  lemma BhToDoneSettled(s: State, t: Tid)
    requires t in s.threads && s.threads[t].BhRx?
    requires Focus(s, Some(t), SkbOf(s.threads[t]), UrbOf(s, s.threads[t]))
    ensures Settled(DoBhDeliver(s, t, ToDone), Some(t), SkbOf(s.threads[t]), UrbOf(s, s.threads[t]))
  {
  }

  lemma PausePurgeFramed(s: State)
    requires s.pause != [] && s.pause[0] in s.cb
    requires Focus(s, None, Some(s.pause[0]), s.cb[s.pause[0]].urb)
    ensures Framed(s, DoPauseReturn(s, true), None, Some(s.pause[0]), s.cb[s.pause[0]].urb)
  {
  }

  lemma PausePurgeSettled(s: State)
    requires s.pause != [] && s.pause[0] in s.cb
    requires Focus(s, None, Some(s.pause[0]), s.cb[s.pause[0]].urb)
    ensures Settled(DoPauseReturn(s, true), None, Some(s.pause[0]), s.cb[s.pause[0]].urb)
  {
  }

  lemma PauseDeliverFramed(s: State)
    requires s.pause != [] && s.pause[0] in s.cb
    requires Focus(s, None, Some(s.pause[0]), s.cb[s.pause[0]].urb)
    ensures Framed(s, DoPauseReturn(s, false), None, Some(s.pause[0]), s.cb[s.pause[0]].urb)
  {
  }

  lemma PauseDeliverSettled(s: State)
    requires s.pause != [] && s.pause[0] in s.cb
    requires Focus(s, None, Some(s.pause[0]), s.cb[s.pause[0]].urb)
    ensures Settled(DoPauseReturn(s, false), None, Some(s.pause[0]), s.cb[s.pause[0]].urb)
  {
  }

  lemma XmitBeginMoves(s: State, t: Tid, x: Skb, left: SkbState, u: Urb)
    requires t !in s.threads && x !in s.cb && u !in s.refs
    requires Focus(s, Some(t), Some(x), Some(u))
    ensures Moves(s, DoXmitBegin(s, t, x, left, u), Some(t), Some(x), Some(u))
  {
  }

  lemma XmitBeginBooked(s: State, t: Tid, x: Skb, left: SkbState, u: Urb)
    requires t !in s.threads && x !in s.cb && u !in s.refs
    requires Focus(s, Some(t), Some(x), Some(u))
    ensures Booked(s, DoXmitBegin(s, t, x, left, u), Some(t), Some(x), Some(u))
  {
  }

  lemma XmitBeginThread(s: State, t: Tid, x: Skb, left: SkbState, u: Urb)
    requires t !in s.threads && x !in s.cb && u !in s.refs
    requires Focus(s, Some(t), Some(x), Some(u))
    ensures ThreadSettled(DoXmitBegin(s, t, x, left, u), Some(t), Some(x), Some(u))
  {
  }

  lemma XmitBeginBuffer(s: State, t: Tid, x: Skb, left: SkbState, u: Urb)
    requires t !in s.threads && x !in s.cb && u !in s.refs
    requires Focus(s, Some(t), Some(x), Some(u))
    ensures BufferSettled(DoXmitBegin(s, t, x, left, u), Some(t), Some(x), Some(u))
  {
  }

  lemma XmitBeginUrb(s: State, t: Tid, x: Skb, left: SkbState, u: Urb)
    requires t !in s.threads && x !in s.cb && u !in s.refs
    requires Focus(s, Some(t), Some(x), Some(u))
    ensures UrbSettled(DoXmitBegin(s, t, x, left, u), Some(t), Some(x), Some(u))
  {
  }

  lemma XmitBeginSettled(s: State, t: Tid, x: Skb, left: SkbState, u: Urb)
    requires t !in s.threads && x !in s.cb && u !in s.refs
    requires Focus(s, Some(t), Some(x), Some(u))
    ensures Settled(DoXmitBegin(s, t, x, left, u), Some(t), Some(x), Some(u))
  {
    XmitBeginThread(s, t, x, left, u);
    XmitBeginBuffer(s, t, x, left, u);
    XmitBeginUrb(s, t, x, left, u);
  }

  lemma XmitRefusedFramed(s: State, t: Tid, pmOk: bool, status: SubmitStatus)
    requires t in s.threads && s.threads[t].Xmit? && (!pmOk || (!s.asleep && !status.Accepted?))
    requires Focus(s, Some(t), SkbOf(s.threads[t]), UrbOf(s, s.threads[t]))
    ensures Framed(s, DoXmitLocked(s, t, pmOk, status), Some(t), SkbOf(s.threads[t]), UrbOf(s, s.threads[t]))
  {
  }

  lemma XmitRefusedSettled(s: State, t: Tid, pmOk: bool, status: SubmitStatus)
    requires t in s.threads && s.threads[t].Xmit? && (!pmOk || (!s.asleep && !status.Accepted?))
    requires Focus(s, Some(t), SkbOf(s.threads[t]), UrbOf(s, s.threads[t]))
    ensures Settled(DoXmitLocked(s, t, pmOk, status), Some(t), SkbOf(s.threads[t]), UrbOf(s, s.threads[t]))
  {
  }

  lemma XmitDeferredRecords(s: State, t: Tid, status: SubmitStatus)
    requires t in s.threads && s.threads[t].Xmit? && s.asleep && !s.draining
    requires Focus(s, Some(t), SkbOf(s.threads[t]), UrbOf(s, s.threads[t]))
    ensures SameRecords(s, DoXmitLocked(s, t, true, status), Some(t), SkbOf(s.threads[t]), UrbOf(s, s.threads[t]))
  {
  }

  lemma XmitDeferredQueues(s: State, t: Tid, status: SubmitStatus)
    requires t in s.threads && s.threads[t].Xmit? && s.asleep && !s.draining
    requires Focus(s, Some(t), SkbOf(s.threads[t]), UrbOf(s, s.threads[t]))
    ensures SameQueues(s, DoXmitLocked(s, t, true, status), Some(t), SkbOf(s.threads[t]), UrbOf(s, s.threads[t]))
  {
  }

  lemma XmitDeferredMoves(s: State, t: Tid, status: SubmitStatus)
    requires t in s.threads && s.threads[t].Xmit? && s.asleep && !s.draining
    requires Focus(s, Some(t), SkbOf(s.threads[t]), UrbOf(s, s.threads[t]))
    ensures Moves(s, DoXmitLocked(s, t, true, status), Some(t), SkbOf(s.threads[t]), UrbOf(s, s.threads[t]))
  {
    XmitDeferredRecords(s, t, status);
    XmitDeferredQueues(s, t, status);
  }

  lemma XmitDeferredBooked(s: State, t: Tid, status: SubmitStatus)
    requires t in s.threads && s.threads[t].Xmit? && s.asleep && !s.draining
    requires Focus(s, Some(t), SkbOf(s.threads[t]), UrbOf(s, s.threads[t]))
    ensures Booked(s, DoXmitLocked(s, t, true, status), Some(t), SkbOf(s.threads[t]), UrbOf(s, s.threads[t]))
  {
  }

  lemma XmitDeferredFramed(s: State, t: Tid, status: SubmitStatus)
    requires t in s.threads && s.threads[t].Xmit? && s.asleep && !s.draining
    requires Focus(s, Some(t), SkbOf(s.threads[t]), UrbOf(s, s.threads[t]))
    ensures Framed(s, DoXmitLocked(s, t, true, status), Some(t), SkbOf(s.threads[t]), UrbOf(s, s.threads[t]))
  {
    XmitDeferredMoves(s, t, status);
    XmitDeferredBooked(s, t, status);
  }

  lemma XmitDeferredSettled(s: State, t: Tid, status: SubmitStatus)
    requires t in s.threads && s.threads[t].Xmit? && s.asleep && !s.draining
    requires Focus(s, Some(t), SkbOf(s.threads[t]), UrbOf(s, s.threads[t]))
    ensures Settled(DoXmitLocked(s, t, true, status), Some(t), SkbOf(s.threads[t]), UrbOf(s, s.threads[t]))
  {
  }

  lemma XmitAcceptedRecords(s: State, t: Tid)
    requires t in s.threads && s.threads[t].Xmit? && !s.asleep
    requires Focus(s, Some(t), SkbOf(s.threads[t]), UrbOf(s, s.threads[t]))
    ensures SameRecords(s, DoXmitLocked(s, t, true, Accepted), Some(t), SkbOf(s.threads[t]), UrbOf(s, s.threads[t]))
  {
  }

  lemma XmitAcceptedQueues(s: State, t: Tid)
    requires t in s.threads && s.threads[t].Xmit? && !s.asleep
    requires Focus(s, Some(t), SkbOf(s.threads[t]), UrbOf(s, s.threads[t]))
    ensures SameQueues(s, DoXmitLocked(s, t, true, Accepted), Some(t), SkbOf(s.threads[t]), UrbOf(s, s.threads[t]))
  {
  }

  lemma XmitAcceptedMoves(s: State, t: Tid)
    requires t in s.threads && s.threads[t].Xmit? && !s.asleep
    requires Focus(s, Some(t), SkbOf(s.threads[t]), UrbOf(s, s.threads[t]))
    ensures Moves(s, DoXmitLocked(s, t, true, Accepted), Some(t), SkbOf(s.threads[t]), UrbOf(s, s.threads[t]))
  {
    XmitAcceptedRecords(s, t);
    XmitAcceptedQueues(s, t);
  }

  lemma XmitAcceptedConsistent(s: State, t: Tid)
    requires t in s.threads && s.threads[t].Xmit? && !s.asleep
    requires Focus(s, Some(t), SkbOf(s.threads[t]), UrbOf(s, s.threads[t]))
    ensures Consistent(s, DoXmitLocked(s, t, true, Accepted), Some(t), SkbOf(s.threads[t]), UrbOf(s, s.threads[t]))
  {
  }

  lemma XmitAcceptedBooked(s: State, t: Tid)
    requires t in s.threads && s.threads[t].Xmit? && !s.asleep
    requires Focus(s, Some(t), SkbOf(s.threads[t]), UrbOf(s, s.threads[t]))
    ensures Booked(s, DoXmitLocked(s, t, true, Accepted), Some(t), SkbOf(s.threads[t]), UrbOf(s, s.threads[t]))
  {
    XmitAcceptedConsistent(s, t);
  }

  lemma XmitAcceptedThread(s: State, t: Tid)
    requires t in s.threads && s.threads[t].Xmit? && !s.asleep
    requires Focus(s, Some(t), SkbOf(s.threads[t]), UrbOf(s, s.threads[t]))
    ensures ThreadSettled(DoXmitLocked(s, t, true, Accepted), Some(t), SkbOf(s.threads[t]), UrbOf(s, s.threads[t]))
  {
  }

  lemma XmitAcceptedBuffer(s: State, t: Tid)
    requires t in s.threads && s.threads[t].Xmit? && !s.asleep
    requires Focus(s, Some(t), SkbOf(s.threads[t]), UrbOf(s, s.threads[t]))
    ensures BufferSettled(DoXmitLocked(s, t, true, Accepted), Some(t), SkbOf(s.threads[t]), UrbOf(s, s.threads[t]))
  {
  }

  lemma XmitAcceptedUrb(s: State, t: Tid)
    requires t in s.threads && s.threads[t].Xmit? && !s.asleep
    requires Focus(s, Some(t), SkbOf(s.threads[t]), UrbOf(s, s.threads[t]))
    ensures UrbSettled(DoXmitLocked(s, t, true, Accepted), Some(t), SkbOf(s.threads[t]), UrbOf(s, s.threads[t]))
  {
  }

  lemma XmitAcceptedSettled(s: State, t: Tid)
    requires t in s.threads && s.threads[t].Xmit? && !s.asleep
    requires Focus(s, Some(t), SkbOf(s.threads[t]), UrbOf(s, s.threads[t]))
    ensures Settled(DoXmitLocked(s, t, true, Accepted), Some(t), SkbOf(s.threads[t]), UrbOf(s, s.threads[t]))
  {
    XmitAcceptedThread(s, t);
    XmitAcceptedBuffer(s, t);
    XmitAcceptedUrb(s, t);
  }

  lemma XmitDropMoves(s: State, t: Tid)
    requires t in s.threads && s.threads[t].XmitFailed?
    requires Focus(s, Some(t), SkbOf(s.threads[t]), UrbOf(s, s.threads[t]))
    ensures Moves(s, DoXmitDrop(s, t), Some(t), SkbOf(s.threads[t]), UrbOf(s, s.threads[t]))
  {
  }

  lemma XmitDropBooked(s: State, t: Tid)
    requires t in s.threads && s.threads[t].XmitFailed?
    requires Focus(s, Some(t), SkbOf(s.threads[t]), UrbOf(s, s.threads[t]))
    ensures Booked(s, DoXmitDrop(s, t), Some(t), SkbOf(s.threads[t]), UrbOf(s, s.threads[t]))
  {
  }

  lemma XmitDropFramed(s: State, t: Tid)
    requires t in s.threads && s.threads[t].XmitFailed?
    requires Focus(s, Some(t), SkbOf(s.threads[t]), UrbOf(s, s.threads[t]))
    ensures Framed(s, DoXmitDrop(s, t), Some(t), SkbOf(s.threads[t]), UrbOf(s, s.threads[t]))
  {
    XmitDropMoves(s, t);
    XmitDropBooked(s, t);
  }

  lemma XmitDropSettled(s: State, t: Tid)
    requires t in s.threads && s.threads[t].XmitFailed?
    requires Focus(s, Some(t), SkbOf(s.threads[t]), UrbOf(s, s.threads[t]))
    ensures Settled(DoXmitDrop(s, t), Some(t), SkbOf(s.threads[t]), UrbOf(s, s.threads[t]))
  {
  }

  lemma TxGivebackFramed(s: State, t: Tid, u: Urb)
    requires t !in s.threads && u in s.hostTx && u !in s.hostRx && u in s.ctx
    requires Focus(s, Some(t), Some(s.ctx[u]), Some(u))
    ensures Framed(s, DoTxGiveback(s, t, u), Some(t), Some(s.ctx[u]), Some(u))
  {
  }

  lemma TxGivebackSettled(s: State, t: Tid, u: Urb)
    requires t !in s.threads && u in s.hostTx && u !in s.hostRx && u in s.ctx
    requires Focus(s, Some(t), Some(s.ctx[u]), Some(u))
    ensures Settled(DoTxGiveback(s, t, u), Some(t), Some(s.ctx[u]), Some(u))
  {
  }

  lemma TxUnlinkFramed(s: State, t: Tid)
    requires t in s.threads && s.threads[t].TxMid? && !s.draining
    requires Focus(s, Some(t), SkbOf(s.threads[t]), UrbOf(s, s.threads[t]))
    ensures Framed(s, DoTxUnlink(s, t), Some(t), SkbOf(s.threads[t]), UrbOf(s, s.threads[t]))
  {
  }

  lemma TxUnlinkSettled(s: State, t: Tid)
    requires t in s.threads && s.threads[t].TxMid? && !s.draining
    requires Focus(s, Some(t), SkbOf(s.threads[t]), UrbOf(s, s.threads[t]))
    ensures Settled(DoTxUnlink(s, t), Some(t), SkbOf(s.threads[t]), UrbOf(s, s.threads[t]))
  {
  }

  lemma TxQueueDoneFramed(s: State, t: Tid)
    requires t in s.threads && s.threads[t].TxMoving?
    requires Focus(s, Some(t), SkbOf(s.threads[t]), UrbOf(s, s.threads[t]))
    ensures Framed(s, DoTxQueueDone(s, t), Some(t), SkbOf(s.threads[t]), UrbOf(s, s.threads[t]))
  {
  }

  lemma TxQueueDoneSettled(s: State, t: Tid)
    requires t in s.threads && s.threads[t].TxMoving?
    requires Focus(s, Some(t), SkbOf(s.threads[t]), UrbOf(s, s.threads[t]))
    ensures Settled(DoTxQueueDone(s, t), Some(t), SkbOf(s.threads[t]), UrbOf(s, s.threads[t]))
  {
  }

  lemma ResumeFailFramed(s: State)
    requires s.draining && s.deferred != [] && s.deferred[0] in s.ctx
    requires Focus(s, None, Some(s.ctx[s.deferred[0]]), Some(s.deferred[0]))
    ensures Framed(s, DoResumeOne(s, false), None, Some(s.ctx[s.deferred[0]]), Some(s.deferred[0]))
  {
  }

  lemma ResumeFailSettled(s: State)
    requires s.draining && s.deferred != [] && s.deferred[0] in s.ctx
    requires Focus(s, None, Some(s.ctx[s.deferred[0]]), Some(s.deferred[0]))
    ensures Settled(DoResumeOne(s, false), None, Some(s.ctx[s.deferred[0]]), Some(s.deferred[0]))
  {
  }

  lemma ResumeOkRecords(s: State)
    requires s.draining && s.deferred != [] && s.deferred[0] in s.ctx
    requires Focus(s, None, Some(s.ctx[s.deferred[0]]), Some(s.deferred[0]))
    ensures SameRecords(s, DoResumeOne(s, true), None, Some(s.ctx[s.deferred[0]]), Some(s.deferred[0]))
  {
  }

  lemma ResumeOkQueues(s: State)
    requires s.draining && s.deferred != [] && s.deferred[0] in s.ctx
    requires Focus(s, None, Some(s.ctx[s.deferred[0]]), Some(s.deferred[0]))
    ensures SameQueues(s, DoResumeOne(s, true), None, Some(s.ctx[s.deferred[0]]), Some(s.deferred[0]))
  {
  }

  lemma ResumeOkMoves(s: State)
    requires s.draining && s.deferred != [] && s.deferred[0] in s.ctx
    requires Focus(s, None, Some(s.ctx[s.deferred[0]]), Some(s.deferred[0]))
    ensures Moves(s, DoResumeOne(s, true), None, Some(s.ctx[s.deferred[0]]), Some(s.deferred[0]))
  {
    ResumeOkRecords(s);
    ResumeOkQueues(s);
  }

  lemma ResumeOkBooked(s: State)
    requires s.draining && s.deferred != [] && s.deferred[0] in s.ctx
    requires Focus(s, None, Some(s.ctx[s.deferred[0]]), Some(s.deferred[0]))
    ensures Booked(s, DoResumeOne(s, true), None, Some(s.ctx[s.deferred[0]]), Some(s.deferred[0]))
  {
  }

  lemma ResumeOkSettled(s: State)
    requires s.draining && s.deferred != [] && s.deferred[0] in s.ctx
    requires Focus(s, None, Some(s.ctx[s.deferred[0]]), Some(s.deferred[0]))
    ensures Settled(DoResumeOne(s, true), None, Some(s.ctx[s.deferred[0]]), Some(s.deferred[0]))
  {
  }

  // ----- unlinking -------------------------------------------------------------------------

  lemma MarkFramed(s: State, t: Option<Tid>, x: Skb, u: Option<Urb>)
    requires x in s.owner && (s.owner[x].OnRxq? || s.owner[x].OnTxq?) && Cb(s, x).state != UnlinkStart
    requires Focus(s, t, Some(x), u)
    ensures Framed(s, DoMark(s, x), t, Some(x), u)
  {
  }

  lemma MarkSettled(s: State, t: Option<Tid>, x: Skb, u: Option<Urb>)
    requires x in s.owner && (s.owner[x].OnRxq? || s.owner[x].OnTxq?) && Cb(s, x).state != UnlinkStart
    requires Focus(s, t, Some(x), u)
    ensures Settled(DoMark(s, x), t, Some(x), u)
  {
  }

  // ----- the order of transmission ---------------------------------------------------------

  /** A new context for a URB that is not waiting changes nothing for those that are. */
  lemma WaitingStays(deferred: seq<Urb>, ctx: map<Urb, Skb>, u: Urb, x: Skb)
    requires u !in deferred
    ensures Waiting(deferred, ctx[u := x]) == Waiting(deferred, ctx)
  {
  }

  lemma AcceptDeferred(s: State, u: Urb, x: Skb)
    requires Ordered(s.accepted, s.settled, s.wire, s.deferred, s.ctx) && u in s.ctx && s.ctx[u] == x
    ensures Ordered(s.accepted + [x], s.settled, s.wire, s.deferred + [u], s.ctx)
  {
    assert Waiting(s.deferred + [u], s.ctx) == Waiting(s.deferred, s.ctx) + [x];
  }

  lemma AcceptSent(s: State, x: Skb)
    requires Ordered(s.accepted, s.settled, s.wire, s.deferred, s.ctx) && s.deferred == []
    ensures Ordered(s.accepted + [x], s.settled + [(x, true)], s.wire + [x], s.deferred, s.ctx)
  {
    SettleNext(s.settled, x, true);
  }

  lemma SettleNext(settled: seq<(Skb, bool)>, x: Skb, ok: bool)
    ensures Names(settled + [(x, ok)]) == Names(settled) + [x]
    ensures Sent(settled + [(x, ok)]) == Sent(settled) + (if ok then [x] else [])
  {
    assert (settled + [(x, ok)])[..|settled|] == settled;
  }

  lemma SettleDeferred(s: State, ok: bool)
    requires Ordered(s.accepted, s.settled, s.wire, s.deferred, s.ctx)
    requires s.deferred != [] && s.deferred[0] in s.ctx
    ensures var x := s.ctx[s.deferred[0]];
      Ordered(s.accepted, s.settled + [(x, ok)], s.wire + (if ok then [x] else []), s.deferred[1..], s.ctx)
  {
    var x := s.ctx[s.deferred[0]];
    SettleNext(s.settled, x, ok);
    assert Waiting(s.deferred, s.ctx) == [x] + Waiting(s.deferred[1..], s.ctx);
    assert Names(s.settled) + ([x] + Waiting(s.deferred[1..],
                                             s.ctx)) == (Names(s.settled) + [x]) + Waiting(s.deferred[1..], s.ctx);
  }
}
