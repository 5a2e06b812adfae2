/** What the invariant says about every reachable state of the transfer engine. */
module UsbNetTheorems {
  import opened Basics
  import opened UsbNetModel
  import opened UsbNetInvariant
  import opened UsbNetSafety
  import opened UsbNetTrace

  // ----- ownership of buffers --------------------------------------------------------------

  /** The places a buffer can be, told from the queues, the threads and the frees themselves. */
  datatype Place = Rxq | Txq | Done | Pause | Anchor(u: Urb) | Thread(t: Tid) | FreeList

  ghost predicate IsAt(s: State, x: Skb, p: Place) {
    match p
    case Rxq => x in s.rxq
    case Txq => x in s.txq
    case Done => x in s.done
    case Pause => x in s.pause
    case Anchor(u) => u in s.deferred && Ctx(s, u) == x
    case Thread(t) => t in s.threads && HandSkb(s.threads[t]) == Some(x)
    case FreeList => x in s.skbFrees
  }

  ghost function PlaceOf(o: Owner, e: Entry): Option<Place> {
    match o
    case OnRxq(_) => Some(Rxq)
    case OnTxq(_) => Some(Txq)
    case OnDone => Some(Done)
    case OnPause => Some(Pause)
    case OnAnchor => if e.urb.Some? then Some(Anchor(e.urb.value)) else None
    case InHand(t) => Some(Thread(t))
    case WithStack => None
    case Freed => Some(FreeList)
    case Leaked => None
  }

  lemma PlaceIsOwner(s: State, x: Skb, p: Place)
    requires Buffers(s)
    requires AnchorLinks(s.deferred, s.cb, s.owner, s.ctx)
    ensures IsAt(s, x, p) <==> x in s.owner && x in s.cb && PlaceOf(s.owner[x], s.cb[x]) == Some(p)
  {
  }

  /** No buffer is in two places, or twice in one. */
  lemma SingleOwner(s: State, x: Skb, p: Place, q: Place)
    requires Reachable(s)
    ensures IsAt(s, x, p) && IsAt(s, x, q) ==> p == q
    ensures NoDup(s.rxq) && NoDup(s.txq) && NoDup(s.done) && NoDup(s.pause) && NoDup(s.deferred)
  {
    ReachableInv(s);
    PlaceIsOwner(s, x, p);
    PlaceIsOwner(s, x, q);
  }

  /** No buffer is lost: whatever exists is in some place, or the network stack has it. */
  lemma NothingLost(s: State, x: Skb)
    requires Reachable(s) && x in s.cb
    ensures x in s.owner
    ensures s.owner[x].WithStack? || exists p :: IsAt(s, x, p)
  {
    ReachableInv(s);
    if !s.owner[x].WithStack? {
      var p := PlaceOf(s.owner[x], s.cb[x]).value;
      PlaceIsOwner(s, x, p);
    }
  }

  // ----- ownership of URBs -----------------------------------------------------------------

  /**
   The places a URB can be: submitted for reading or writing, in one handler's hands, on the anchor,
   idle in the entry of one buffer, or freed.
   */
  datatype UrbPlace = Reading | Writing | Taken(t: Tid) | Anchored | Idle(x: Skb) | Released

  /** The buffer's entry counts: it is queued for, or on its way through, the tasklet. */
  ghost predicate InService(s: State, x: Skb) {
    || x in s.rxq || x in s.txq || x in s.done
    || exists t :: t in s.threads && Completing(s.threads[t]) && HandSkb(s.threads[t]) == Some(x)
  }

  ghost predicate UrbIsAt(s: State, u: Urb, p: UrbPlace) {
    match p
    case Reading => u in s.hostRx
    case Writing => u in s.hostTx
    case Taken(t) => t in s.threads && HandUrb(s.threads[t]) == Some(u)
    case Anchored => u in s.deferred
    case Idle(x) => u !in s.hostRx && u !in s.hostTx && x in s.cb && s.cb[x].urb == Some(u) && InService(s, x)
    case Released => u in s.urbFrees
  }

  ghost function UrbPlaceOf(s: State, u: Urb): UrbPlace
    requires u in s.holder
  {
    match s.holder[u]
    case ViaEntry(x) => if u in s.hostRx then Reading else if u in s.hostTx then Writing else Idle(x)
    case ViaAnchor => Anchored
    case HeldBy(t) => Taken(t)
    case Gone => Released
  }

  lemma InServiceHolds(s: State, x: Skb)
    requires Buffers(s) && x in s.owner
    ensures InService(s, x) <==> EntryHolds(s.owner[x], s.threads)
  {
    if EntryHolds(s.owner[x], s.threads) && s.owner[x].InHand? {
      assert HandSkb(s.threads[s.owner[x].t]) == Some(x);
    }
  }

  lemma HostIsHeld(s: State, u: Urb)
    requires Buffers(s) && Transfers(s) && (u in s.hostRx || u in s.hostTx)
    ensures u in s.holder && s.holder[u].ViaEntry? && !(u in s.hostRx && u in s.hostTx)
  {
    var x := s.ctx[u];
    assert EntryHolds(s.owner[x], s.threads) && s.cb[x].urb == Some(u);
    assert s.owner[x].OnRxq? == (u in s.hostRx);
  }

  lemma IdleIsHolder(s: State, u: Urb, x: Skb)
    requires Buffers(s) && Transfers(s)
    ensures x in s.cb && s.cb[x].urb == Some(u) && InService(s, x) <==> u in s.holder && s.holder[u] == ViaEntry(x)
  {
    if x in s.owner {
      InServiceHolds(s, x);
    }
  }

  lemma UrbPlaceIsHolder(s: State, u: Urb, p: UrbPlace)
    requires Buffers(s) && Transfers(s)
    ensures UrbIsAt(s, u, p) <==> u in s.holder && UrbPlaceOf(s, u) == p
  {
    if u in s.hostRx || u in s.hostTx {
      HostIsHeld(s, u);
    }
    if p.Idle? {
      IdleIsHolder(s, u, p.x);
    }
  }

  /** Every URB ever allocated is in exactly one of those places. */
  lemma UrbSingleOwner(s: State, u: Urb, p: UrbPlace, q: UrbPlace)
    requires Reachable(s)
    ensures UrbIsAt(s, u, p) && UrbIsAt(s, u, q) ==> p == q
    ensures u in s.refs <==> exists r :: UrbIsAt(s, u, r)
  {
    ReachableInv(s);
    UrbPlaceIsHolder(s, u, p);
    UrbPlaceIsHolder(s, u, q);
    if u in s.refs {
      UrbPlaceIsHolder(s, u, UrbPlaceOf(s, u));
    }
    if r :| UrbIsAt(s, u, r) {
      UrbPlaceIsHolder(s, u, r);
    }
  }

  // ----- freeing ---------------------------------------------------------------------------

  /** The URBs somebody will still touch. */
  ghost predicate InUse(s: State, u: Urb) {
    || u in s.hostRx || u in s.hostTx || u in s.deferred
    || (exists t :: t in s.threads && HandUrb(s.threads[t]) == Some(u))
    || (exists t :: t in s.threads && s.threads[t].Unlinking? && s.threads[t].pinned == Some(u))
    || (exists x :: x in s.owner && EntryHolds(s.owner[x], s.threads) && Cb(s, x).urb == Some(u))
  }

  /** No buffer and no URB is freed twice, and a URB in use has its memory. */
  lemma FreedOnce(s: State, u: Urb)
    requires Reachable(s)
    ensures NoDup(s.skbFrees) && NoDup(s.urbFrees)
    ensures InUse(s, u) ==> u in s.refs && s.refs[u] != {}
    ensures u in s.urbFrees && InUse(s, u) ==>
              exists t :: t in s.threads && s.threads[t].Unlinking? && s.threads[t].pinned == Some(u)
  {
    ReachableInv(s);
    InUseIsCounted(s, u);
  }

  lemma InUseIsCounted(s: State, u: Urb)
    requires Transfers(s) && Domains(s.cb, s.owner, s.ctx, s.refs, s.holder)
    requires Freeing(s.owner, s.holder, s.skbFrees, s.urbFrees)
    ensures InUse(s, u) ==> u in s.refs && s.refs[u] != {}
    ensures u in s.urbFrees && InUse(s, u) ==>
              exists t :: t in s.threads && s.threads[t].Unlinking? && s.threads[t].pinned == Some(u)
  {
    if u in s.hostRx || u in s.hostTx {
      assert u in s.refs && Core in s.refs[u];
      assert EntryHolds(s.owner[s.ctx[u]], s.threads);
      assert u in s.holder && s.holder[u] == ViaEntry(s.ctx[u]);
    } else if u in s.deferred {
      assert Base in s.refs[u];
    } else if t :| t in s.threads && HandUrb(s.threads[t]) == Some(u) {
      assert Base in s.refs[u];
    } else if t :| t in s.threads && s.threads[t].Unlinking? && s.threads[t].pinned == Some(u) {
      assert Pin(t) in s.refs[u];
    } else if x :| x in s.owner && EntryHolds(s.owner[x], s.threads) && Cb(s, x).urb == Some(u) {
      assert u in s.holder && s.holder[u] == ViaEntry(x);
      assert Base in s.refs[u];
    }
  }

  // ----- completions -----------------------------------------------------------------------

  /** A completion finds its buffer on the queue it is to be unlinked from. */
  lemma CompletionFindsItsBuffer(s: State)
    requires Reachable(s)
    ensures forall u :: u in s.hostRx ==> Ctx(s, u) in s.rxq && Cb(s, Ctx(s, u)).urb == Some(u)
    ensures forall u :: u in s.hostTx ==> Ctx(s, u) in s.txq && Cb(s, Ctx(s, u)).urb == Some(u)
    ensures forall t :: t in s.threads && s.threads[t].RxMid? ==> s.threads[t].x in s.rxq
    ensures forall t :: t in s.threads && s.threads[t].TxMid? ==> s.threads[t].x in s.txq
  {
    ReachableInv(s);
    forall t | t in s.threads && s.threads[t].RxMid?
      ensures s.threads[t].x in s.rxq
    {
      assert RxDoing(s.threads[t]) == Some(s.threads[t].x);
    }
    forall t | t in s.threads && s.threads[t].TxMid?
      ensures s.threads[t].x in s.txq
    {
      assert TxDoing(s.threads[t]) == Some(s.threads[t].x);
    }
  }

  /**
   The tasklet's default branch is unreachable, and its tx_done branch, which looks into
   entry->urb, always finds a URB that is still allocated.
   */
  lemma NoBogusState(s: State, t: Tid)
    requires Reachable(s) && Enabled(s, BhDispatch(t))
    ensures var e := Cb(s, s.threads[t].x);
      && (e.state == RxDone || e.state == TxDone || e.state == RxCleanup)
      && (e.state == TxDone ==> e.urb.Some? && e.urb.value in s.refs && s.refs[e.urb.value] != {})
    ensures forall x :: x in Next(s, BhDispatch(t)).owner ==> !Next(s, BhDispatch(t)).owner[x].Leaked?
  {
    DispatchUrb(s, t);
    StepReachable(s, BhDispatch(t));
    NoneLeaked(Next(s, BhDispatch(t)));
  }

  lemma NoneLeaked(s: State)
    requires Reachable(s)
    ensures forall x :: x in s.owner ==> !s.owner[x].Leaked?
  {
    ReachableInv(s);
  }

  lemma DispatchUrb(s: State, t: Tid)
    requires Reachable(s) && t in s.threads && s.threads[t].BhHas?
    ensures var e := Cb(s, s.threads[t].x);
      Finished(e) && (e.urb.Some? ==> e.urb.value in s.refs && s.refs[e.urb.value] != {})
  {
    ReachableInv(s);
    FinishedUrb(s, t);
  }

  lemma FinishedUrb(s: State, t: Tid)
    requires Buffers(s) && ViaEntries(s.cb, s.owner, s.holder, s.threads) && BaseRefs(s.refs, s.holder)
    requires t in s.threads && s.threads[t].BhHas?
    ensures var e := Cb(s, s.threads[t].x);
      && Finished(e)
      && (e.urb.Some? ==> e.urb.value in s.refs && s.refs[e.urb.value] != {})
  {
    DispatchFinds(s, t);
    var x := s.threads[t].x;
    assert HandSkb(s.threads[t]) == Some(x);
    assert EntryHolds(s.owner[x], s.threads);
    if s.cb[x].urb.Some? {
      var u := s.cb[x].urb.value;
      assert u in s.holder && s.holder[u] == ViaEntry(x);
      assert u in s.holder.Keys && u in s.refs.Keys;
      assert Base in s.refs[u];
    }
  }

  // ----- the order of transmission ---------------------------------------------------------

  lemma {:induction false} SentIsSubsequence(settled: seq<(Skb, bool)>)
    ensures IsSubsequence(Sent(settled), Names(settled))
  {
    if settled != [] {
      var rest, last := settled[..|settled| - 1], settled[|settled| - 1];
      SentIsSubsequence(rest);
      assert Names(settled)[..|settled| - 1] == Names(rest);
      if last.1 {
        assert Sent(settled)[..|Sent(settled)| - 1] == Sent(rest);
      } else {
        assert Sent(settled) == Sent(rest);
      }
    }
  }

  /**
   Packets reach the device in the order usbnet_start_xmit accepted them, across any number of
   suspends; the only ones that do not are those whose resubmission failed, and while the device
   is awake none is waiting.
   */
  lemma TransmitOrder(s: State)
    requires Reachable(s)
    ensures IsSubsequence(s.wire, Names(s.settled))
    ensures s.accepted == Names(s.settled) + Waiting(s.deferred, s.ctx)
    ensures s.wire == Sent(s.settled) && NoDup(s.accepted)
    ensures !s.asleep ==> s.deferred == [] && s.accepted == Names(s.settled)
  {
    ReachableInv(s);
    SentIsSubsequence(s.settled);
    if s.deferred == [] {
      assert Waiting(s.deferred, s.ctx) == [];
    }
  }

  // ----- which events reach the host controller --------------------------------------------

  /** The event submits nothing: neither transmissions nor reads join those at the host. */
  ghost predicate SubmitsNothing(s: State, s': State) {
    && s'.wire == s.wire && s'.hostTx <= s.hostTx && s'.hostRx <= s.hostRx
    && s'.swept == s.swept && (forall x :: x in s'.rxq ==> x in s.rxq)
  }

  lemma CompletionSubmits(s: State, e: Event)
    requires IsCompletion(e) && Enabled(s, e)
    ensures SubmitsNothing(s, NextCompletion(s, e))
  {
    match e
    case RxGiveback(t, u) => assert SubmitsNothing(s, DoRxGiveback(s, t, u));
    case RxClassify(t, verdict) => assert SubmitsNothing(s, DoRxClassify(s, t, verdict));
    case RxUnlink(t) => assert SubmitsNothing(s, DoRxUnlink(s, t));
    case RxQueueDone(t) => assert SubmitsNothing(s, DoRxQueueDone(s, t));
    case RxDecide(t, running) => assert SubmitsNothing(s, DoRxDecide(s, t, running));
  }

  lemma SubmissionSubmits(s: State, e: Event)
    requires IsSubmission(e) && Enabled(s, e)
    ensures SubmitsNothing(s, NextSubmission(s, e)) || (e.RxSubmitLocked? && s.threads[e.t].go)
    ensures NextSubmission(s, e).wire == s.wire && NextSubmission(s, e).hostTx == s.hostTx
    ensures NextSubmission(s, e).swept == s.swept
  {
    match e
    case AllocRxUrb(t, u) => assert SubmitsNothing(s, DoAllocRxUrb(s, t, u));
    case RxAlloc(t, x, ok) => assert SubmitsNothing(s, DoRxAlloc(s, t, x, ok));
    case RxLockTest(t, running) => assert SubmitsNothing(s, DoRxLockTest(s, t, running));
    case RxSubmitLocked(t, status) => 
    case RxDropFailed(t) => assert SubmitsNothing(s, DoRxDropFailed(s, t));
  }

  lemma TaskletSubmits(s: State, e: Event)
    requires IsTasklet(e) && Enabled(s, e)
    ensures SubmitsNothing(s, NextTasklet(s, e))
  {
    match e
    case BhDequeue(t) => assert SubmitsNothing(s, DoBhDequeue(s, t));
    case BhDispatch(t) => assert SubmitsNothing(s, DoBhDispatch(s, t));
    case BhDeliver(t, dest) => assert SubmitsNothing(s, DoBhDeliver(s, t, dest));
    case PauseReturn(purge) => assert SubmitsNothing(s, DoPauseReturn(s, purge));
  }

  lemma SendSubmits(s: State, e: Event)
    requires IsSend(e) && Enabled(s, e)
    ensures SubmitsNothing(s, NextSend(s, e)) || (e.XmitLocked? && !s.asleep)
    ensures NextSend(s, e).rxq == s.rxq && NextSend(s, e).hostRx == s.hostRx && NextSend(s, e).swept == s.swept
  {
  }

  lemma ControlSubmits(s: State, e: Event)
    requires IsControl(e) && Enabled(s, e)
    ensures NextControl(s, e).rxq == s.rxq && NextControl(s, e).hostRx == s.hostRx
    ensures e.ResumeOne? || (NextControl(s, e).wire == s.wire && NextControl(s, e).hostTx == s.hostTx)
    ensures s.swept && !e.ResumeEnd? ==> NextControl(s, e).swept
  {
  }

  lemma ReceiveSubmits(s: State, e: Event)
    requires IsReceive(e) && Enabled(s, e)
    ensures SubmitsNothing(s, NextReceive(s, e)) || (e.RxSubmitLocked? && s.threads[e.t].go)
    ensures NextReceive(s, e).wire == s.wire && NextReceive(s, e).hostTx <= s.hostTx
    ensures NextReceive(s, e).swept == s.swept
  {
    if IsCompletion(e) {
      CompletionSubmits(s, e);
    } else if IsSubmission(e) {
      SubmissionSubmits(s, e);
    } else {
      TaskletSubmits(s, e);
    }
  }

  /** Only the drain of usbnet_resume, which holds txq.lock, transmits before the device is awake. */
  lemma TransmitsAwake(s: State, e: Event)
    requires Enabled(s, e)
    ensures Next(s, e).wire != s.wire || !(Next(s, e).hostTx <= s.hostTx) ==>
              (e.XmitLocked? && !s.asleep) || (e.ResumeOne? && s.draining)
  {
    if IsReceive(e) {
      ReceiveSubmits(s, e);
    } else if IsSend(e) {
      SendSubmits(s, e);
    } else {
      ControlSubmits(s, e);
    }
  }

  /** rxq gains an entry only where rx_submit found its flags clear. */
  lemma ReadsWhenClear(s: State, e: Event)
    requires Enabled(s, e)
    ensures || (e.RxSubmitLocked? && s.threads[e.t].go)
            || (Next(s, e).hostRx <= s.hostRx && forall x :: x in Next(s, e).rxq ==> x in s.rxq)
    ensures s.swept && !e.ResumeEnd? ==> Next(s, e).swept
  {
    if IsReceive(e) {
      ReceiveSubmits(s, e);
    } else if IsSend(e) {
      SendSubmits(s, e);
    } else {
      ControlSubmits(s, e);
    }
  }

  // ----- power references ------------------------------------------------------------------

  /** Each reference taken for a transmission is dropped once: what is outstanding is in flight or waiting. */
  lemma PowerBalanced(s: State)
    requires Reachable(s)
    ensures s.power == |s.hostTx| + |s.deferred|
    ensures !s.asleep ==> s.power == |s.hostTx|
    ensures s.power == 0 <==> s.hostTx == {} && s.deferred == []
  {
    ReachableInv(s);
  }

  /** With no completion under way the reference count can be read off the queues. */
  lemma PowerAtRest(s: State)
    requires Reachable(s) && forall t :: t in s.threads ==> s.threads[t].Unlinking?
    ensures s.power == |s.txq| + |s.deferred|
  {
    ReachableInv(s);
    var back := map x | x in s.txq :: s.cb[x].urb.value;
    AtRestMatch(s, back);
    SameCount(s.hostTx, QueueSet(s.txq), s.ctx, back);
    QueueSize(s.txq);
  }

  function QueueSet(q: seq<Skb>): set<Skb> {
    set x | x in q
  }

  lemma {:induction false} QueueSize(q: seq<Skb>)
    requires NoDup(q)
    ensures |QueueSet(q)| == |q|
    decreases |q|
  {
    if q != [] {
      var n := |q| - 1;
      QueueSize(q[..n]);
      assert QueueSet(q) == QueueSet(q[..n]) + {q[n]};
    }
  }

  lemma AtRestMatch(s: State, back: map<Skb, Urb>)
    requires Reachable(s) && forall t :: t in s.threads ==> s.threads[t].Unlinking?
    requires forall x :: x in s.txq ==> x in s.cb && s.cb[x].urb.Some?
    requires back == map x | x in s.txq :: s.cb[x].urb.value
    ensures forall u :: u in s.hostTx ==> u in s.ctx && s.ctx[u] in QueueSet(s.txq) && back[s.ctx[u]] == u
    ensures forall x :: x in QueueSet(s.txq) ==>
              x in back && back[x] in s.hostTx && back[x] in s.ctx && s.ctx[back[x]] == x
  {
    ReachableInv(s);
    forall u | u in s.hostTx
      ensures u in s.ctx && s.ctx[u] in QueueSet(s.txq) && back[s.ctx[u]] == u
    {
      SentIsQueued(s, u);
    }
    forall x | x in s.txq
      ensures back[x] in s.hostTx && back[x] in s.ctx && s.ctx[back[x]] == x
    {
      assert x in s.owner && s.owner[x].OnTxq?;
      assert s.owner[x].why.Host?;
      var v := s.owner[x].why.u;
      assert v in s.hostTx && v in s.ctx && s.ctx[v] == x;
    }
  }

  lemma {:induction false} SameCount(a: set<Urb>, b: set<Skb>, there: map<Urb, Skb>, back: map<Skb, Urb>)
    requires forall u :: u in a ==> u in there && there[u] in b && there[u] in back && back[there[u]] == u
    requires forall x :: x in b ==> x in back && back[x] in a && back[x] in there && there[back[x]] == x
    ensures |a| == |b|
    decreases |a|
  {
    if forall u :: u !in a {
      assert a == {};
      assert forall x :: x !in b;
      assert b == {};
    } else {
      var u :| u in a;
      var x := there[u];
      SameCount(a - {u}, b - {x}, there, back);
      assert a == (a - {u}) + {u} && b == (b - {x}) + {x};
    }
  }

  lemma SentIsQueued(s: State, u: Urb)
    requires HostTx(s.hostTx, s.cb, s.owner, s.ctx) && TxQueue(s.txq, s.owner)
    requires u in s.hostTx
    ensures u in s.ctx && s.ctx[u] in s.txq
  {
    var x := s.ctx[u];
    assert x in s.owner && s.owner[x].OnTxq?;
  }

  /** An autosuspend that is not refused finds the transmitter idle. */
  lemma AutosuspendIsIdle(s: State)
    requires Reachable(s) && !s.asleep && Enabled(s, Suspend(true))
    ensures Next(s, Suspend(true)).asleep <==> s.txq == []
    ensures s.txq == [] ==> s.power == 0 && s.hostTx == {}
  {
    ReachableInv(s);
    forall u | u in s.hostTx
      ensures s.txq != []
    {
      SentIsQueued(s, u);
    }
  }

  // ----- unlinking -------------------------------------------------------------------------

  /** No entry is unlinked twice, and unlink_urbs cancels only the transfer of the entry it marked. */
  lemma UnlinkIsPrecise(s: State, t: Tid)
    requires Reachable(s)
    ensures NoDup(s.unlinkCalls)
    ensures t in s.threads && s.threads[t].Unlinking? && s.threads[t].pinned.Some? ==>
              var u, x := s.threads[t].pinned.value, s.threads[t].x;
              && Ctx(s, u) == x && u in s.refs && s.refs[u] != {}
              && (u in s.hostRx ==> x in s.rxq && Cb(s, x) == Entry(UnlinkStart, Some(u)))
              && (u in s.hostTx ==> x in s.txq && Cb(s, x) == Entry(UnlinkStart, Some(u)))
  {
    ReachableInv(s);
    if t in s.threads && s.threads[t].Unlinking? && s.threads[t].pinned.Some? {
      assert Pin(t) in s.refs[s.threads[t].pinned.value];
    }
  }

  /** The next entry unlink_urbs picks was never picked before. */
  lemma PickIsNew(s: State, t: Tid, rx: bool)
    requires Reachable(s) && Enabled(s, UnlinkPick(t, rx))
    ensures FirstToUnlink(s.cb, if rx then s.rxq else s.txq).value !in s.unlinkCalls
  {
    ReachableInv(s);
    var x := FirstToUnlink(s.cb, if rx then s.rxq else s.txq).value;
    assert x in s.owner && x in s.cb;
  }

  /**
   When unlink_urbs finds nothing more on rxq, every read there has been unlinked.  On txq the same
   holds but for packets that usbnet_resume requeued: it does not write their state, so one whose
   control block came from the stack reading unlink_start passes for unlinked.
   */
  lemma UnlinkExit(s: State)
    requires Reachable(s)
    ensures FirstToUnlink(s.cb, s.rxq).None? <==> forall x :: x in s.rxq ==> x in s.unlinkCalls
    ensures FirstToUnlink(s.cb, s.txq).None? <==>
              forall x :: x in s.txq ==> x in s.unlinkCalls || (x in s.resumed && s.resumed[x] == UnlinkStart)
  {
    ReachableInv(s);
    NothingToUnlink(s.cb, s.rxq);
    NothingToUnlink(s.cb, s.txq);
    forall x | x in s.rxq
      ensures x in s.cb && (s.cb[x].state == UnlinkStart <==> x in s.unlinkCalls)
    {
    }
    forall x | x in s.txq
      ensures x in s.cb
      ensures (s.cb[x].state == UnlinkStart <==> x in s.unlinkCalls || (x in s.resumed && s.resumed[x] == UnlinkStart))
    {
    }
  }

  lemma {:induction false} NothingToUnlink(cb: map<Skb, Entry>, q: seq<Skb>)
    ensures FirstToUnlink(cb, q).None? <==> forall x :: x in q ==> x in cb && cb[x].state == UnlinkStart
    decreases |q|
  {
    if q != [] {
      NothingToUnlink(cb, q[1..]);
      assert forall x :: x in q <==> x == q[0] || x in q[1..];
    }
  }

  // ----- suspend and the receive queue -----------------------------------------------------

  /** After the sweep of a suspend no read is submitted, and none is resubmitted, until resume ends. */
  lemma SweptStaysQuiet(s: State, e: Event)
    requires Reachable(s) && s.swept && Enabled(s, e) && !e.ResumeEnd?
    ensures forall x :: x in s.rxq ==> x in s.unlinkCalls
    ensures Next(s, e).swept && Next(s, e).hostRx <= s.hostRx
    ensures forall x :: x in Next(s, e).rxq ==> x in s.rxq
  {
    ReachableInv(s);
    forall x | x in s.rxq
      ensures x in s.unlinkCalls
    {
      assert x in s.owner && x in s.cb;
    }
    ReadsWhenClear(s, e);
  }
}
