/** The invariant holds in every reachable state of the transfer engine. */
module UsbNetSafety {
  import opened Basics
  import opened UsbNetModel
  import opened UsbNetInvariant
  import opened UsbNetLocality
  import opened UsbNetFocus
  import opened UsbNetSteps

  lemma RxGivebackKeeps(s: State, t: Tid, u: Urb)
    requires Inv(s) && t !in s.threads && u in s.hostRx
    ensures Inv(DoRxGiveback(s, t, u))
  {
    FocusHost(s, t, u);
    RxGivebackFramed(s, t, u);
    RxGivebackSettled(s, t, u);
    LocalKeepsInv(s, DoRxGiveback(s, t, u), Some(t), Some(s.ctx[u]), Some(u));
  }

  lemma RxBlockKeeps(s: State, t: Tid, stall: bool)
    requires Inv(s) && t in s.threads && s.threads[t].RxTop?
    ensures Inv(DoRxClassify(s, t, Block(stall)))
  {
    FocusOn(s, t);
    RxBlockFramed(s, t, stall);
    RxBlockSettled(s, t, stall);
    LocalKeepsInv(s, DoRxClassify(s, t, Block(stall)), Some(t), SkbOf(s.threads[t]), UrbOf(s, s.threads[t]));
  }

  lemma RxKeepKeeps(s: State, t: Tid, verdict: RxStatus)
    requires Inv(s) && t in s.threads && s.threads[t].RxTop? && !verdict.Block?
    ensures Inv(DoRxClassify(s, t, verdict))
  {
    FocusOn(s, t);
    RxKeepFramed(s, t, verdict);
    RxKeepSettled(s, t, verdict);
    LocalKeepsInv(s, DoRxClassify(s, t, verdict), Some(t), SkbOf(s.threads[t]), UrbOf(s, s.threads[t]));
  }

  lemma RxUnlinkKeeps(s: State, t: Tid)
    requires Inv(s) && t in s.threads && s.threads[t].RxMid? && s.rxLock.None?
    ensures Inv(DoRxUnlink(s, t))
  {
    FocusOn(s, t);
    RxUnlinkFramed(s, t);
    RxUnlinkSettled(s, t);
    LocalKeepsInv(s, DoRxUnlink(s, t), Some(t), SkbOf(s.threads[t]), UrbOf(s, s.threads[t]));
  }

  lemma RxQueueDoneKeeps(s: State, t: Tid)
    requires Inv(s) && t in s.threads && s.threads[t].RxMoving?
    ensures Inv(DoRxQueueDone(s, t))
  {
    FocusOn(s, t);
    RxQueueDoneFramed(s, t);
    RxQueueDoneSettled(s, t);
    LocalKeepsInv(s, DoRxQueueDone(s, t), Some(t), SkbOf(s.threads[t]), UrbOf(s, s.threads[t]));
  }

  lemma RxResubmitKeeps(s: State, t: Tid)
    requires Inv(s) && t in s.threads && s.threads[t].RxAfter? && s.threads[t].keep.Some?
    requires s.threads[t].was != UnlinkStart
    ensures Inv(Goto(s, t, Submit(s.threads[t].keep.value)))
  {
    FocusOn(s, t);
    RxResubmitLocal(s, t);
    LocalKeepsInv(s, Goto(s, t, Submit(s.threads[t].keep.value)), Some(t), SkbOf(s.threads[t]), UrbOf(s, s.threads[t]));
  }

  lemma RxGiveUpKeeps(s: State, t: Tid)
    requires Inv(s) && t in s.threads && s.threads[t].RxAfter? && s.threads[t].keep.Some?
    ensures Inv(End(FreeUrb(s, s.threads[t].keep.value), t))
  {
    FocusOn(s, t);
    RxGiveUpFramed(s, t);
    RxGiveUpSettled(s, t);
    LocalKeepsInv(s, End(FreeUrb(s, s.threads[t].keep.value), t), Some(t), SkbOf(s.threads[t]), UrbOf(s, s.threads[t]));
  }

  lemma RxAfterEndKeeps(s: State, t: Tid)
    requires Inv(s) && t in s.threads && s.threads[t].RxAfter? && s.threads[t].keep.None?
    ensures Inv(End(s, t))
  {
    FocusOn(s, t);
    RxAfterEndLocal(s, t);
    LocalKeepsInv(s, End(s, t), Some(t), SkbOf(s.threads[t]), UrbOf(s, s.threads[t]));
  }

  lemma AllocRxUrbKeeps(s: State, t: Tid, u: Urb)
    requires Inv(s) && t !in s.threads && u !in s.refs
    ensures Inv(DoAllocRxUrb(s, t, u))
  {
    FocusFresh(s, Some(t), None, Some(u));
    AllocRxUrbFramed(s, t, u);
    AllocRxUrbSettled(s, t, u);
    LocalKeepsInv(s, DoAllocRxUrb(s, t, u), Some(t), None, Some(u));
  }

  lemma RxAllocFailKeeps(s: State, t: Tid, memory: bool)
    requires Inv(s) && t in s.threads && s.threads[t].Submit?
    ensures Inv(End(FreeUrb(s.(ctl := s.ctl.(memory := memory)), s.threads[t].u), t))
  {
    FocusOn(s, t);
    RxAllocFailFramed(s, t, memory);
    RxAllocFailSettled(s, t, memory);
    LocalKeepsInv(s, End(FreeUrb(s.(ctl := s.ctl.(memory := memory)), s.threads[t].u), t),
                  Some(t), SkbOf(s.threads[t]), UrbOf(s, s.threads[t]));
  }

  lemma RxAllocOkKeeps(s: State, t: Tid, x: Skb)
    requires Inv(s) && t in s.threads && s.threads[t].Submit? && !s.kill && x !in s.cb
    ensures Inv(DoRxAlloc(s, t, x, true))
  {
    FocusOn(s, t);
    FocusFresh(s, None, Some(x), None);
    RxAllocOkFramed(s, t, x);
    RxAllocOkSettled(s, t, x);
    WaitingStays(s.deferred, s.ctx, s.threads[t].u, x);
    LocalKeepsInv(s, DoRxAlloc(s, t, x, true), Some(t), Some(x), Some(s.threads[t].u));
  }

  lemma RxLockTestKeeps(s: State, t: Tid, running: bool)
    requires Inv(s) && t in s.threads && s.threads[t].Ready? && s.rxLock.None?
    ensures Inv(DoRxLockTest(s, t, running))
  {
    FocusOn(s, t);
    RxLockTestFramed(s, t, running);
    RxLockTestSettled(s, t, running);
    LocalKeepsInv(s, DoRxLockTest(s, t, running), Some(t), SkbOf(s.threads[t]), UrbOf(s, s.threads[t]));
  }

  lemma RxAcceptedKeeps(s: State, t: Tid)
    requires Inv(s) && t in s.threads && s.threads[t].Locked? && s.threads[t].go
    ensures Inv(DoRxSubmitLocked(s, t, Accepted))
  {
    FocusOn(s, t);
    RxAcceptedFramed(s, t);
    RxAcceptedSettled(s, t);
    LocalKeepsInv(s, DoRxSubmitLocked(s, t, Accepted), Some(t), SkbOf(s.threads[t]), UrbOf(s, s.threads[t]));
  }

  lemma RxRefusedKeeps(s: State, t: Tid, halt: bool, memory: bool)
    requires Inv(s) && t in s.threads && s.threads[t].Locked?
    ensures Inv(Goto(s.(ctl := s.ctl.(rxLock := None, halt := halt, memory := memory)), t,
                     Failed(s.threads[t].u, s.threads[t].x)))
  {
    FocusOn(s, t);
    RxRefusedLocal(s, t, halt, memory);
    LocalKeepsInv(s, Goto(s.(ctl := s.ctl.(rxLock := None, halt := halt, memory := memory)), t,
                          Failed(s.threads[t].u, s.threads[t].x)),
                  Some(t), SkbOf(s.threads[t]), UrbOf(s, s.threads[t]));
  }

  lemma RxDropFailedKeeps(s: State, t: Tid)
    requires Inv(s) && t in s.threads && s.threads[t].Failed?
    ensures Inv(DoRxDropFailed(s, t))
  {
    FocusOn(s, t);
    RxDropFailedFramed(s, t);
    RxDropFailedSettled(s, t);
    LocalKeepsInv(s, DoRxDropFailed(s, t), Some(t), SkbOf(s.threads[t]), UrbOf(s, s.threads[t]));
  }

  lemma BhDequeueKeeps(s: State, t: Tid)
    requires Inv(s) && t !in s.threads && s.done != []
    ensures Inv(DoBhDequeue(s, t))
  {
    FocusRest(s, Some(t), s.done[0]);
    BhDequeueFramed(s, t);
    BhDequeueSettled(s, t);
    LocalKeepsInv(s, DoBhDequeue(s, t), Some(t), Some(s.done[0]), s.cb[s.done[0]].urb);
  }

  lemma BhReceivedKeeps(s: State, t: Tid)
    requires Inv(s) && t in s.threads && s.threads[t].BhHas? && Cb(s, s.threads[t].x).state == RxDone
    ensures Inv(Goto(s.(bufs := s.bufs.(cb := s.cb[s.threads[t].x := Cb(s, s.threads[t].x).(state := RxCleanup)])), t,
                     BhRx(s.threads[t].x)))
  {
    FocusOn(s, t);
    BhReceivedFramed(s, t);
    BhReceivedSettled(s, t);
    LocalKeepsInv(s, Goto(s.(bufs := s.bufs.(cb := s.cb[s.threads[t].x := Cb(s, s.threads[t].x).(state := RxCleanup)])),
                          t, BhRx(s.threads[t].x)),
                  Some(t), SkbOf(s.threads[t]), UrbOf(s, s.threads[t]));
  }

  lemma BhFreeBothKeeps(s: State, t: Tid)
    requires Inv(s) && t in s.threads && s.threads[t].BhHas? && Cb(s, s.threads[t].x).urb.Some?
    ensures Inv(End(FreeBoth(s, s.threads[t].x, Cb(s, s.threads[t].x).urb.value), t))
  {
    FocusOn(s, t);
    BhFreeBothFramed(s, t);
    BhFreeBothSettled(s, t);
    LocalKeepsInv(s, End(FreeBoth(s, s.threads[t].x, Cb(s, s.threads[t].x).urb.value), t),
                  Some(t), SkbOf(s.threads[t]), UrbOf(s, s.threads[t]));
  }

  lemma BhFreeBufferKeeps(s: State, t: Tid)
    requires Inv(s) && t in s.threads && s.threads[t].BhHas? && Cb(s, s.threads[t].x).urb.None?
    ensures Inv(End(FreeSkb(s, s.threads[t].x), t))
  {
    FocusOn(s, t);
    BhFreeBufferFramed(s, t);
    BhFreeBufferSettled(s, t);
    LocalKeepsInv(s, End(FreeSkb(s, s.threads[t].x), t), Some(t), SkbOf(s.threads[t]), UrbOf(s, s.threads[t]));
  }

  lemma BhToStackKeeps(s: State, t: Tid)
    requires Inv(s) && t in s.threads && s.threads[t].BhRx?
    ensures Inv(DoBhDeliver(s, t, ToStack))
  {
    FocusOn(s, t);
    BhToStackFramed(s, t);
    BhToStackSettled(s, t);
    LocalKeepsInv(s, DoBhDeliver(s, t, ToStack), Some(t), SkbOf(s.threads[t]), UrbOf(s, s.threads[t]));
  }

  lemma BhToPauseKeeps(s: State, t: Tid)
    requires Inv(s) && t in s.threads && s.threads[t].BhRx?
    ensures Inv(DoBhDeliver(s, t, ToPause))
  {
    FocusOn(s, t);
    BhToPauseFramed(s, t);
    BhToPauseSettled(s, t);
    LocalKeepsInv(s, DoBhDeliver(s, t, ToPause), Some(t), SkbOf(s.threads[t]), UrbOf(s, s.threads[t]));
  }

  lemma BhToDoneKeeps(s: State, t: Tid)
    requires Inv(s) && t in s.threads && s.threads[t].BhRx?
    ensures Inv(DoBhDeliver(s, t, ToDone))
  {
    FocusOn(s, t);
    BhToDoneFramed(s, t);
    BhToDoneSettled(s, t);
    LocalKeepsInv(s, DoBhDeliver(s, t, ToDone), Some(t), SkbOf(s.threads[t]), UrbOf(s, s.threads[t]));
  }

  lemma PausePurgeKeeps(s: State)
    requires Inv(s) && s.pause != []
    ensures Inv(DoPauseReturn(s, true))
  {
    FocusRest(s, None, s.pause[0]);
    PausePurgeFramed(s);
    PausePurgeSettled(s);
    LocalKeepsInv(s, DoPauseReturn(s, true), None, Some(s.pause[0]), s.cb[s.pause[0]].urb);
  }

  lemma PauseDeliverKeeps(s: State)
    requires Inv(s) && s.pause != []
    ensures Inv(DoPauseReturn(s, false))
  {
    FocusRest(s, None, s.pause[0]);
    PauseDeliverFramed(s);
    PauseDeliverSettled(s);
    LocalKeepsInv(s, DoPauseReturn(s, false), None, Some(s.pause[0]), s.cb[s.pause[0]].urb);
  }

  lemma XmitBeginKeeps(s: State, t: Tid, x: Skb, left: SkbState, u: Urb)
    requires Inv(s) && t !in s.threads && x !in s.cb && u !in s.refs
    ensures Inv(DoXmitBegin(s, t, x, left, u))
  {
    FocusFresh(s, Some(t), Some(x), Some(u));
    XmitBeginMoves(s, t, x, left, u);
    XmitBeginBooked(s, t, x, left, u);
    XmitBeginSettled(s, t, x, left, u);
    WaitingStays(s.deferred, s.ctx, u, x);
    LocalKeepsInv(s, DoXmitBegin(s, t, x, left, u), Some(t), Some(x), Some(u));
  }

  lemma XmitRefusedKeeps(s: State, t: Tid, pmOk: bool, status: SubmitStatus)
    requires Inv(s) && t in s.threads && s.threads[t].Xmit? && (!pmOk || (!s.asleep && !status.Accepted?))
    ensures Inv(DoXmitLocked(s, t, pmOk, status))
  {
    FocusOn(s, t);
    XmitRefusedFramed(s, t, pmOk, status);
    XmitRefusedSettled(s, t, pmOk, status);
    LocalKeepsInv(s, DoXmitLocked(s, t, pmOk, status), Some(t), SkbOf(s.threads[t]), UrbOf(s, s.threads[t]));
  }

  lemma XmitDeferredKeeps(s: State, t: Tid, status: SubmitStatus)
    requires Inv(s) && t in s.threads && s.threads[t].Xmit? && s.asleep && !s.draining
    ensures Inv(DoXmitLocked(s, t, true, status))
  {
    FocusOn(s, t);
    XmitDeferredFramed(s, t, status);
    XmitDeferredSettled(s, t, status);
    AcceptDeferred(s, s.threads[t].u, s.threads[t].x);
    LocalKeepsInv(s, DoXmitLocked(s, t, true, status), Some(t), SkbOf(s.threads[t]), UrbOf(s, s.threads[t]));
  }

  lemma XmitAcceptedKeeps(s: State, t: Tid)
    requires Inv(s) && t in s.threads && s.threads[t].Xmit? && !s.asleep
    ensures Inv(DoXmitLocked(s, t, true, Accepted))
  {
    FocusOn(s, t);
    XmitAcceptedMoves(s, t);
    XmitAcceptedBooked(s, t);
    XmitAcceptedSettled(s, t);
    AcceptSent(s, s.threads[t].x);
    LocalKeepsInv(s, DoXmitLocked(s, t, true, Accepted), Some(t), SkbOf(s.threads[t]), UrbOf(s, s.threads[t]));
  }

  lemma XmitDropKeeps(s: State, t: Tid)
    requires Inv(s) && t in s.threads && s.threads[t].XmitFailed?
    ensures Inv(DoXmitDrop(s, t))
  {
    FocusOn(s, t);
    XmitDropFramed(s, t);
    XmitDropSettled(s, t);
    LocalKeepsInv(s, DoXmitDrop(s, t), Some(t), SkbOf(s.threads[t]), UrbOf(s, s.threads[t]));
  }

  lemma TxGivebackKeeps(s: State, t: Tid, u: Urb)
    requires Inv(s) && t !in s.threads && u in s.hostTx
    ensures Inv(DoTxGiveback(s, t, u))
  {
    FocusHost(s, t, u);
    TxGivebackFramed(s, t, u);
    TxGivebackSettled(s, t, u);
    LocalKeepsInv(s, DoTxGiveback(s, t, u), Some(t), Some(s.ctx[u]), Some(u));
  }

  lemma TxUnlinkKeeps(s: State, t: Tid)
    requires Inv(s) && t in s.threads && s.threads[t].TxMid? && !s.draining
    ensures Inv(DoTxUnlink(s, t))
  {
    FocusOn(s, t);
    TxUnlinkFramed(s, t);
    TxUnlinkSettled(s, t);
    LocalKeepsInv(s, DoTxUnlink(s, t), Some(t), SkbOf(s.threads[t]), UrbOf(s, s.threads[t]));
  }

  lemma TxQueueDoneKeeps(s: State, t: Tid)
    requires Inv(s) && t in s.threads && s.threads[t].TxMoving?
    ensures Inv(DoTxQueueDone(s, t))
  {
    FocusOn(s, t);
    TxQueueDoneFramed(s, t);
    TxQueueDoneSettled(s, t);
    LocalKeepsInv(s, DoTxQueueDone(s, t), Some(t), SkbOf(s.threads[t]), UrbOf(s, s.threads[t]));
  }

  lemma DeferredHead(s: State)
    requires s.deferred != [] && AnchorLinks(s.deferred, s.cb, s.owner, s.ctx)
    ensures var u := s.deferred[0];
      && u in s.ctx && s.ctx[u] in s.owner && s.owner[s.ctx[u]].OnAnchor?
      && s.ctx[u] in s.cb && s.cb[s.ctx[u]].urb == Some(u)
  {
    assert s.deferred[0] in s.deferred;
  }

  lemma ResumeFailKeeps(s: State)
    requires Inv(s) && s.draining && s.deferred != []
    ensures Inv(DoResumeOne(s, false))
  {
    DeferredHead(s);
    FocusRest(s, None, s.ctx[s.deferred[0]]);
    ResumeFailFramed(s);
    ResumeFailSettled(s);
    SettleDeferred(s, false);
    LocalKeepsInv(s, DoResumeOne(s, false), None, Some(s.ctx[s.deferred[0]]), Some(s.deferred[0]));
  }

  lemma ResumeOkKeeps(s: State)
    requires Inv(s) && s.draining && s.deferred != []
    ensures Inv(DoResumeOne(s, true))
  {
    DeferredHead(s);
    FocusRest(s, None, s.ctx[s.deferred[0]]);
    ResumeOkMoves(s);
    ResumeOkBooked(s);
    ResumeOkSettled(s);
    SettleDeferred(s, true);
    LocalKeepsInv(s, DoResumeOne(s, true), None, Some(s.ctx[s.deferred[0]]), Some(s.deferred[0]));
  }

  // ----- events that are not local ---------------------------------------------------------

  lemma MarkLocalKeeps(s: State, t: Tid, x: Skb, u: Option<Urb>)
    requires Inv(s) && x in s.owner && (s.owner[x].OnRxq? || s.owner[x].OnTxq?) && Cb(s, x).state != UnlinkStart
    requires Focus(s, Some(t), Some(x), u)
    ensures Inv(DoMark(s, x))
  {
    MarkFramed(s, Some(t), x, u);
    MarkSettled(s, Some(t), x, u);
    LocalKeepsInv(s, DoMark(s, x), Some(t), Some(x), u);
  }

  /** The marked entry may be at the host, or its completion handler may be about to take the lock. */
  lemma MarkKeeps(s: State, t: Tid, x: Skb)
    requires Inv(s) && t !in s.threads
    requires x in s.owner && (s.owner[x].OnRxq? || s.owner[x].OnTxq?) && Cb(s, x).state != UnlinkStart
    ensures Inv(DoMark(s, x))
  {
    var why := s.owner[x].why;
    match why
    case Handler(t') =>
      FocusOn(s, t');
      MarkLocalKeeps(s, t', x, UrbOf(s, s.threads[t']));
    case Host(u) =>
      FocusHost(s, t, u);
      MarkLocalKeeps(s, t, x, Some(u));
  }

  /** The two tables differ in one thread, which is an unlinker in the one and absent from the other. */
  ghost predicate Unlinker(threads: map<Tid, Local>, threads': map<Tid, Local>, t: Tid) {
    && Same(threads, threads', Some(t))
    && (t in threads ==> threads[t].Unlinking?) && (t in threads' ==> threads'[t].Unlinking?)
  }

  lemma UnlinkerOwnsNothing(threads: map<Tid, Local>, threads': map<Tid, Local>, t: Tid, owner: map<Skb, Owner>)
    requires Unlinker(threads, threads', t)
    requires Hands(threads, owner) && RxDoers(threads, owner) && TxDoers(threads, owner)
    ensures Hands(threads', owner) && RxDoers(threads', owner) && TxDoers(threads', owner)
  {
  }

  lemma UnlinkerHoldsNoBase(threads: map<Tid, Local>, threads': map<Tid, Local>, t: Tid,
                            holder: map<Urb, Holder>, cb: map<Skb, Entry>, ctx: map<Urb, Skb>)
    requires Unlinker(threads, threads', t)
    requires UrbHands(threads, holder) && Links(threads, cb, ctx)
    ensures UrbHands(threads', holder) && Links(threads', cb, ctx)
  {
  }

  lemma UnlinkerChangesNoOwner(threads: map<Tid, Local>, threads': map<Tid, Local>, t: Tid,
                               owner: map<Skb, Owner>, holder: map<Urb, Holder>, cb: map<Skb, Entry>,
                               accepted: seq<Skb>, unlinkCalls: seq<Skb>, resumed: map<Skb, SkbState>)
    requires Unlinker(threads, threads', t) && Hands(threads, owner)
    requires ViaEntries(cb, owner, holder, threads) && LocalStates(threads, cb)
    requires AcceptedOnce(accepted, owner, threads) && Submitted(unlinkCalls, resumed, owner, threads)
    ensures ViaEntries(cb, owner, holder, threads') && LocalStates(threads', cb)
    ensures AcceptedOnce(accepted, owner, threads') && Submitted(unlinkCalls, resumed, owner, threads')
  {
  }

  lemma UnlinkerLetsBe(threads: map<Tid, Local>, threads': map<Tid, Local>, t: Tid, owner: map<Skb, Owner>,
                       cb: map<Skb, Entry>, ctx: map<Urb, Skb>, unlinkCalls: seq<Skb>,
                        rxLock: Option<Tid>, swept: bool, asleep: bool)
    requires Unlinker(threads, threads', t)
    requires Hands(threads, owner) && RxLock(rxLock, threads) && Swept(swept, asleep, cb, owner, threads)
    requires Keepers(threads, ctx, owner, unlinkCalls)
    ensures RxLock(rxLock, threads') && Swept(swept, asleep, cb, owner, threads')
    ensures Keepers(threads', ctx, owner, unlinkCalls)
  {
    forall t' | t' in threads'
      ensures Keeps(threads'[t'], ctx, owner, threads', unlinkCalls)
    {
      if t' != t {
        assert Keeps(threads[t'], ctx, owner, threads, unlinkCalls);
      }
    }
  }

  lemma UnlinkerKeeps(s: State, t: Tid, threads': map<Tid, Local>, refs': map<Urb, set<Ref>>)
    requires Inv(s) && Unlinker(s.threads, threads', t) && refs'.Keys == s.refs.Keys
    requires BaseRefs(refs', s.holder) && CoreRefs(refs', s.hostRx, s.hostTx) && PinRefs(refs', threads')
    requires Pins(threads', s.ctx, s.unlinkCalls)
    ensures Inv(s.(threads := threads', urbs := s.urbs.(refs := refs')))
  {
    UnlinkerOwnsNothing(s.threads, threads', t, s.owner);
    UnlinkerHoldsNoBase(s.threads, threads', t, s.holder, s.cb, s.ctx);
    UnlinkerChangesNoOwner(s.threads, threads', t, s.owner, s.holder, s.cb, s.accepted, s.unlinkCalls, s.resumed);
    UnlinkerLetsBe(s.threads, threads', t, s.owner, s.cb, s.ctx, s.unlinkCalls, s.rxLock, s.swept, s.asleep);
  }

  /** A changed pin leaves the other references of the URB alone. */
  lemma OtherRefs(s: State, u: Urb, r: set<Ref>)
    requires BaseRefs(s.refs, s.holder) && CoreRefs(s.refs, s.hostRx, s.hostTx) && u in s.refs
    requires Base in r <==> Base in s.refs[u]
    requires Core in r <==> Core in s.refs[u]
    ensures BaseRefs(s.refs[u := r], s.holder) && CoreRefs(s.refs[u := r], s.hostRx, s.hostTx)
  {
  }

  /** The tables of threads and references before and after an unlinker takes or drops its pin. */
  ghost predicate Repinned(s: State, t: Tid, threads': map<Tid, Local>, refs': map<Urb, set<Ref>>) {
    && Unlinker(s.threads, threads', t) && refs'.Keys == s.refs.Keys
    && BaseRefs(refs', s.holder) && CoreRefs(refs', s.hostRx, s.hostTx) && PinRefs(refs', threads')
    && Pins(threads', s.ctx, s.unlinkCalls)
  }

  lemma PinTaken(s: State, t: Tid, u: Urb, x: Skb)
    requires BaseRefs(s.refs, s.holder) && CoreRefs(s.refs, s.hostRx, s.hostTx)
    requires PinRefs(s.refs, s.threads) && Pins(s.threads, s.ctx, s.unlinkCalls)
    requires t !in s.threads && u in s.refs && u in s.ctx && s.ctx[u] == x && x in s.unlinkCalls
    ensures Repinned(s, t, s.threads[t := Unlinking(Some(u), x)], s.refs[u := s.refs[u] + {Pin(t)}])
  {
    OtherRefs(s, u, s.refs[u] + {Pin(t)});
  }

  lemma PinSkipped(s: State, t: Tid, x: Skb)
    requires BaseRefs(s.refs, s.holder) && CoreRefs(s.refs, s.hostRx, s.hostTx)
    requires PinRefs(s.refs, s.threads) && Pins(s.threads, s.ctx, s.unlinkCalls)
    requires t !in s.threads && x in s.unlinkCalls
    ensures Repinned(s, t, s.threads[t := Unlinking(None, x)], s.refs)
  {
  }

  lemma PinDropped(s: State, t: Tid, u: Urb)
    requires BaseRefs(s.refs, s.holder) && CoreRefs(s.refs, s.hostRx, s.hostTx)
    requires PinRefs(s.refs, s.threads) && Pins(s.threads, s.ctx, s.unlinkCalls)
    requires t in s.threads && s.threads[t].Unlinking? && s.threads[t].pinned == Some(u)
    ensures u in s.refs && Repinned(s, t, s.threads - {t}, s.refs[u := s.refs[u] - {Pin(t)}])
  {
    OtherRefs(s, u, s.refs[u] - {Pin(t)});
  }

  lemma PinAbsent(s: State, t: Tid)
    requires BaseRefs(s.refs, s.holder) && CoreRefs(s.refs, s.hostRx, s.hostTx)
    requires PinRefs(s.refs, s.threads) && Pins(s.threads, s.ctx, s.unlinkCalls)
    requires t in s.threads && s.threads[t].Unlinking? && s.threads[t].pinned == None
    ensures Repinned(s, t, s.threads - {t}, s.refs)
  {
  }

  /** A marked entry names a URB that points back at it. */
  lemma PinKeeps(s: State, t: Tid, x: Skb)
    requires t !in s.threads && x in s.unlinkCalls
    requires Cb(s, x).urb.Some? ==> var u := Cb(s, x).urb.value; u in s.refs && u in s.ctx && s.ctx[u] == x
    requires Inv(s)
    ensures Inv(DoPin(s, t, x))
  {
    match Cb(s, x).urb
    case None =>
      PinSkipped(s, t, x);
      UnlinkerKeeps(s, t, s.threads[t := Unlinking(None, x)], s.refs);
    case Some(u) =>
      PinTaken(s, t, u, x);
      UnlinkerKeeps(s, t, s.threads[t := Unlinking(Some(u), x)], s.refs[u := s.refs[u] + {Pin(t)}]);
  }

  lemma UnlinkPutKeeps(s: State, t: Tid)
    requires t in s.threads && s.threads[t].Unlinking?
    requires Inv(s)
    ensures Inv(DoUnlinkPut(s, t))
  {
    match s.threads[t].pinned
    case None =>
      PinAbsent(s, t);
      UnlinkerKeeps(s, t, s.threads - {t}, s.refs);
    case Some(u) =>
      PinDropped(s, t, u);
      UnlinkerKeeps(s, t, s.threads - {t}, s.refs[u := s.refs[u] - {Pin(t)}]);
  }

  lemma QueuedUrb(s: State, x: Skb)
    requires ViaEntries(s.cb, s.owner, s.holder, s.threads) && ViaContexts(s.holder, s.ctx)
    requires Domains(s.cb, s.owner, s.ctx, s.refs, s.holder)
    requires x in s.owner && (s.owner[x].OnRxq? || s.owner[x].OnTxq?) && s.cb[x].urb.Some?
    ensures var u := s.cb[x].urb.value; u in s.refs && u in s.ctx && s.ctx[u] == x
  {
    assert EntryHolds(s.owner[x], s.threads);
  }

  lemma UnlinkPickKeeps(s: State, t: Tid, rx: bool)
    requires Inv(s) && Enabled(s, UnlinkPick(t, rx))
    ensures Inv(DoUnlinkPick(s, t, rx))
  {
    var x := FirstToUnlink(s.cb, if rx then s.rxq else s.txq).value;
    MarkKeeps(s, t, x);
    if s.cb[x].urb.Some? {
      QueuedUrb(s, x);
    }
    PinKeeps(DoMark(s, x), t, x);
  }

  lemma SuspendKeeps(s: State, auto: bool)
    requires Inv(s) && Enabled(s, Suspend(auto))
    ensures Inv(DoSuspend(s, auto))
  {
  }

  lemma SweepDoneKeeps(s: State)
    requires Inv(s) && Enabled(s, SweepDone)
    ensures Inv(DoSweepDone(s))
  {
  }

  lemma ResumeBeginKeeps(s: State)
    requires Inv(s) && Enabled(s, ResumeBegin)
    ensures Inv(DoResumeBegin(s))
  {
  }

  lemma ResumeEndKeeps(s: State)
    requires Inv(s) && Enabled(s, ResumeEnd)
    ensures Inv(DoResumeEnd(s))
  {
  }

  lemma FlagsKeeps(s: State, halt: bool, kill: bool, memory: bool)
    requires Inv(s)
    ensures Inv(DoFlags(s, halt, kill, memory))
  {
  }

  // ----- every event -----------------------------------------------------------------------

  lemma ClassifyKeeps(s: State, t: Tid, verdict: RxStatus)
    requires t in s.threads && s.threads[t].RxTop?
    requires Inv(s)
    ensures Inv(DoRxClassify(s, t, verdict))
  {
    match verdict
    case Block(stall) => RxBlockKeeps(s, t, stall);
    case _ => RxKeepKeeps(s, t, verdict);
  }

  lemma DecideKeeps(s: State, t: Tid, running: bool)
    requires t in s.threads && s.threads[t].RxAfter?
    requires Inv(s)
    ensures Inv(DoRxDecide(s, t, running))
  {
    if s.threads[t].keep.None? {
      RxAfterEndKeeps(s, t);
    } else if running && !s.halt && s.threads[t].was != UnlinkStart {
      RxResubmitKeeps(s, t);
    } else {
      RxGiveUpKeeps(s, t);
    }
  }

  lemma AllocKeeps(s: State, t: Tid, x: Skb, ok: bool)
    requires t in s.threads && s.threads[t].Submit? && x !in s.cb
    requires Inv(s)
    ensures Inv(DoRxAlloc(s, t, x, ok))
  {
    if s.kill {
      RxAllocFailKeeps(s, t, s.memory);
    } else if ok {
      RxAllocOkKeeps(s, t, x);
    } else {
      RxAllocFailKeeps(s, t, true);
    }
  }

  lemma LockedKeeps(s: State, t: Tid, status: SubmitStatus)
    requires t in s.threads && s.threads[t].Locked?
    requires Inv(s)
    ensures Inv(DoRxSubmitLocked(s, t, status))
  {
    if s.threads[t].go && status.Accepted? {
      RxAcceptedKeeps(s, t);
    } else {
      var halt, memory := RefusedFlags(s, t, status);
      RxRefusedKeeps(s, t, halt, memory);
    }
  }

  lemma RefusedFlags(s: State, t: Tid, status: SubmitStatus) returns (halt: bool, memory: bool)
    requires t in s.threads && s.threads[t].Locked? && !(s.threads[t].go && status.Accepted?)
    ensures DoRxSubmitLocked(s, t, status)
         == Goto(s.(ctl := s.ctl.(rxLock := None, halt := halt, memory := memory)), t,
                 Failed(s.threads[t].u, s.threads[t].x))
  {
    halt := s.halt || (s.threads[t].go && status.Stalled?);
    memory := s.memory || (s.threads[t].go && status.NoMemory?);
  }

  /** The tasklet finds a state it knows: its default branch is dead. */
  lemma DispatchFinds(s: State, t: Tid)
    requires LocalStates(s.threads, s.cb) && t in s.threads && s.threads[t].BhHas?
    ensures Finished(Cb(s, s.threads[t].x))
  {
    assert LocalState(s.threads[t], s.cb);
  }

  lemma DispatchKeeps(s: State, t: Tid)
    requires t in s.threads && s.threads[t].BhHas?
    requires Inv(s)
    ensures Inv(DoBhDispatch(s, t))
  {
    DispatchFinds(s, t);
    var e := Cb(s, s.threads[t].x);
    if e.state == RxDone {
      BhReceivedKeeps(s, t);
    } else if e.urb.Some? {
      BhFreeBothKeeps(s, t);
    } else {
      BhFreeBufferKeeps(s, t);
    }
  }

  lemma DeliverKeeps(s: State, t: Tid, dest: Delivery)
    requires t in s.threads && s.threads[t].BhRx?
    requires Inv(s)
    ensures Inv(DoBhDeliver(s, t, dest))
  {
    match dest
    case ToStack => BhToStackKeeps(s, t);
    case ToPause => BhToPauseKeeps(s, t);
    case ToDone => BhToDoneKeeps(s, t);
  }

  lemma PauseKeeps(s: State, purge: bool)
    requires s.pause != []
    requires Inv(s)
    ensures Inv(DoPauseReturn(s, purge))
  {
    if purge {
      PausePurgeKeeps(s);
    } else {
      PauseDeliverKeeps(s);
    }
  }

  lemma XmitKeeps(s: State, t: Tid, pmOk: bool, status: SubmitStatus)
    requires t in s.threads && s.threads[t].Xmit? && !s.draining
    requires Inv(s)
    ensures Inv(DoXmitLocked(s, t, pmOk, status))
  {
    if pmOk && s.asleep {
      XmitDeferredKeeps(s, t, status);
    } else if pmOk && status.Accepted? {
      XmitAcceptedKeeps(s, t);
    } else {
      XmitRefusedKeeps(s, t, pmOk, status);
    }
  }

  lemma ResumeKeeps(s: State, ok: bool)
    requires s.draining && s.deferred != []
    requires Inv(s)
    ensures Inv(DoResumeOne(s, ok))
  {
    if ok {
      ResumeOkKeeps(s);
    } else {
      ResumeFailKeeps(s);
    }
  }

  lemma CompletionKeeps(s: State, e: Event)
    requires IsCompletion(e) && Enabled(s, e)
    requires Inv(s)
    ensures Inv(NextCompletion(s, e))
  {
    match e
    case RxGiveback(t, u) => RxGivebackKeeps(s, t, u);
    case RxClassify(t, verdict) => ClassifyKeeps(s, t, verdict);
    case RxUnlink(t) => RxUnlinkKeeps(s, t);
    case RxQueueDone(t) => RxQueueDoneKeeps(s, t);
    case RxDecide(t, running) => DecideKeeps(s, t, running);
  }

  lemma SubmissionKeeps(s: State, e: Event)
    requires IsSubmission(e) && Enabled(s, e)
    requires Inv(s)
    ensures Inv(NextSubmission(s, e))
  {
    match e
    case AllocRxUrb(t, u) => AllocRxUrbKeeps(s, t, u);
    case RxAlloc(t, x, ok) => AllocKeeps(s, t, x, ok);
    case RxLockTest(t, running) => RxLockTestKeeps(s, t, running);
    case RxSubmitLocked(t, status) => LockedKeeps(s, t, status);
    case RxDropFailed(t) => RxDropFailedKeeps(s, t);
  }

  lemma TaskletKeeps(s: State, e: Event)
    requires IsTasklet(e) && Enabled(s, e)
    requires Inv(s)
    ensures Inv(NextTasklet(s, e))
  {
    match e
    case BhDequeue(t) => BhDequeueKeeps(s, t);
    case BhDispatch(t) => DispatchKeeps(s, t);
    case BhDeliver(t, dest) => DeliverKeeps(s, t, dest);
    case PauseReturn(purge) => PauseKeeps(s, purge);
  }

  lemma ReceiveKeeps(s: State, e: Event)
    requires IsReceive(e) && Enabled(s, e)
    requires Inv(s)
    ensures Inv(NextReceive(s, e))
  {
    if IsCompletion(e) {
      CompletionKeeps(s, e);
    } else if IsSubmission(e) {
      SubmissionKeeps(s, e);
    } else {
      TaskletKeeps(s, e);
    }
  }

  lemma TransmitKeeps(s: State, e: Event)
    requires IsTransmit(e) && Enabled(s, e)
    requires Inv(s)
    ensures Inv(NextTransmit(s, e))
  {
    match e
    case XmitBegin(t, x, left, u) => XmitBeginKeeps(s, t, x, left, u);
    case XmitLocked(t, pmOk, status) => XmitKeeps(s, t, pmOk, status);
    case XmitDrop(t) => XmitDropKeeps(s, t);
  }

  lemma SentKeeps(s: State, e: Event)
    requires IsSent(e) && Enabled(s, e)
    requires Inv(s)
    ensures Inv(NextSent(s, e))
  {
    match e
    case TxGiveback(t, u) => TxGivebackKeeps(s, t, u);
    case TxUnlink(t) => TxUnlinkKeeps(s, t);
    case TxQueueDone(t) => TxQueueDoneKeeps(s, t);
  }

  lemma SendKeeps(s: State, e: Event)
    requires IsSend(e) && Enabled(s, e)
    requires Inv(s)
    ensures Inv(NextSend(s, e))
  {
    if IsTransmit(e) {
      TransmitKeeps(s, e);
    } else {
      SentKeeps(s, e);
    }
  }

  lemma UnlinkingKeeps(s: State, e: Event)
    requires IsUnlinking(e) && Enabled(s, e)
    requires Inv(s)
    ensures Inv(NextUnlinking(s, e))
  {
    match e
    case UnlinkPick(t, rx) => UnlinkPickKeeps(s, t, rx);
    case UnlinkPut(t) => UnlinkPutKeeps(s, t);
  }

  lemma SuspendingKeeps(s: State, e: Event)
    requires IsSuspending(e) && Enabled(s, e)
    requires Inv(s)
    ensures Inv(NextSuspending(s, e))
  {
    match e
    case Suspend(auto) => SuspendKeeps(s, auto);
    case SweepDone => SweepDoneKeeps(s);
    case Flags(halt, kill, memory) => FlagsKeeps(s, halt, kill, memory);
  }

  lemma ResumingKeeps(s: State, e: Event)
    requires IsResuming(e) && Enabled(s, e)
    requires Inv(s)
    ensures Inv(NextResuming(s, e))
  {
    match e
    case ResumeBegin => ResumeBeginKeeps(s);
    case ResumeOne(ok) => ResumeKeeps(s, ok);
    case ResumeEnd => ResumeEndKeeps(s);
  }

  lemma ControlKeeps(s: State, e: Event)
    requires IsControl(e) && Enabled(s, e)
    requires Inv(s)
    ensures Inv(NextControl(s, e))
  {
    if IsUnlinking(e) {
      UnlinkingKeeps(s, e);
    } else if IsSuspending(e) {
      SuspendingKeeps(s, e);
    } else {
      ResumingKeeps(s, e);
    }
  }

  lemma StepKeepsInv(s: State, e: Event)
    requires Enabled(s, e)
    requires Inv(s)
    ensures Inv(Next(s, e))
  {
    if IsReceive(e) {
      ReceiveKeeps(s, e);
    } else if IsSend(e) {
      SendKeeps(s, e);
    } else {
      ControlKeeps(s, e);
    }
  }

  lemma {:induction false} RunKeepsInv(s: State, es: seq<Event>)
    requires Inv(s) && Run(s, es).Some?
    ensures Inv(Run(s, es).value)
    decreases |es|
  {
    if es != [] {
      StepKeepsInv(s, es[0]);
      RunKeepsInv(Next(s, es[0]), es[1..]);
    }
  }

  lemma ReachableInv(s: State)
    requires Reachable(s)
    ensures Inv(s)
  {
    var es :| Run(Start, es) == Some(s);
    StartInv();
    RunKeepsInv(Start, es);
  }
}
