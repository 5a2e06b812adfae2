/**
 Runs as the driver's handlers make them: what one more event does to a run, and what a handler
 finds when it starts.
 */
module UsbNetTrace {
  import opened Basics
  import opened UsbNetModel
  import opened UsbNetInvariant
  import opened UsbNetSafety

  // ----- runs, composed --------------------------------------------------------------------

  lemma {:induction false} RunConcat(s: State, es: seq<Event>, fs: seq<Event>)
    ensures Run(s, es).Some? ==> Run(s, es + fs) == Run(Run(s, es).value, fs)
    decreases |es|
  {
    if es == [] {
      assert es + fs == fs;
    } else {
      assert (es + fs)[0] == es[0] && (es + fs)[1..] == es[1..] + fs;
      if Enabled(s, es[0]) {
        RunConcat(Next(s, es[0]), es[1..], fs);
      }
    }
  }

  lemma StepReachable(s: State, e: Event)
    requires Reachable(s) && Enabled(s, e)
    ensures Reachable(Next(s, e))
  {
    var es :| Run(Start, es) == Some(s);
    RunConcat(Start, es, [e]);
    assert [e][1..] == [];
    assert Run(s, [e]) == Some(Next(s, e));
  }

  /** The verifier opens the two definitions below only where this is mentioned. */
  ghost predicate Unfold(k: int) {
    true
  }

  /** s is reachable. */
  ghost predicate Live(s: State) {
    forall k {:trigger Unfold(k)} :: Unfold(k) ==> Reachable(s)
  }

  /** A run leads from r to s. */
  ghost predicate Came(r: State, s: State) {
    forall k {:trigger Unfold(k)} :: Unfold(k) ==> Leads(r, s)
  }

  /** Whatever state a run led to s from, one leads to s' from there. */
  ghost predicate Ran(s: State, s': State) {
    forall r :: Came(r, s) ==> Came(r, s')
  }

  lemma LiveStart()
    ensures Live(Start)
  {
    assert Run(Start, []) == Some(Start);
  }

  // ----- the URBs that exist ---------------------------------------------------------------

  /** The URB an event allocates. */
  function NewUrb(e: Event): (r: set<Urb>) {
    match e
    case AllocRxUrb(_, u) => {u}
    case XmitBegin(_, _, _, u) => {u}
    case _ => {}
  }

  lemma KnownCompletion(s: State, e: Event)
    requires IsCompletion(e) && Enabled(s, e)
    requires UrbHands(s.threads, s.holder) && CoreRefs(s.refs, s.hostRx, s.hostTx) && s.refs.Keys == s.holder.Keys
    ensures NextCompletion(s, e).refs.Keys == s.refs.Keys
  {
    match e
    case RxGiveback(t, u) => assert u in s.refs;
    case RxDecide(t, _) => assert HandUrb(s.threads[t]).Some? ==> HandUrb(s.threads[t]).value in s.holder.Keys;
    case _ =>
  }

  lemma KnownSubmission(s: State, e: Event)
    requires IsSubmission(e) && Enabled(s, e)
    requires UrbHands(s.threads, s.holder) && s.refs.Keys == s.holder.Keys
    ensures NextSubmission(s, e).refs.Keys == s.refs.Keys + NewUrb(e)
  {
    if !e.AllocRxUrb? {
      assert HandUrb(s.threads[e.t]).value in s.holder.Keys;
    }
  }

  lemma KnownTasklet(s: State, e: Event)
    requires IsTasklet(e) && Enabled(s, e)
    requires Hands(s.threads, s.owner) && ViaEntries(s.cb, s.owner, s.holder, s.threads)
    requires s.refs.Keys == s.holder.Keys && s.cb.Keys == s.owner.Keys
    ensures NextTasklet(s, e).refs.Keys == s.refs.Keys
  {
    match e
    case BhDispatch(t) =>
      var x := s.threads[t].x;
      assert HandSkb(s.threads[t]) == Some(x);
      assert EntryHolds(s.owner[x], s.threads);
      assert x in s.owner.Keys && x in s.cb.Keys;
      assert s.cb[x].urb.Some? ==> s.cb[x].urb.value in s.holder.Keys;
    case _ =>
  }

  lemma KnownTransmit(s: State, e: Event)
    requires IsTransmit(e) && Enabled(s, e)
    requires UrbHands(s.threads, s.holder) && s.refs.Keys == s.holder.Keys
    ensures NextTransmit(s, e).refs.Keys == s.refs.Keys + NewUrb(e)
  {
    if !e.XmitBegin? {
      assert HandUrb(s.threads[e.t]).value in s.holder.Keys;
    }
  }

  lemma KnownSend(s: State, e: Event)
    requires IsSend(e) && Enabled(s, e)
    requires UrbHands(s.threads, s.holder) && CoreRefs(s.refs, s.hostRx, s.hostTx) && s.refs.Keys == s.holder.Keys
    ensures NextSend(s, e).refs.Keys == s.refs.Keys + NewUrb(e)
  {
    if IsTransmit(e) {
      KnownTransmit(s, e);
    } else if e.TxGiveback? {
      assert e.u in s.refs;
    }
  }

  lemma KnownUnlinking(s: State, e: Event)
    requires IsUnlinking(e) && Enabled(s, e)
    requires RxQueue(s.rxq, s.owner) && TxQueue(s.txq, s.owner) && ViaEntries(s.cb, s.owner, s.holder, s.threads)
    requires PinRefs(s.refs, s.threads) && s.refs.Keys == s.holder.Keys && s.cb.Keys == s.owner.Keys
    ensures NextUnlinking(s, e).refs.Keys == s.refs.Keys
  {
    match e
    case UnlinkPick(t, rx) =>
      var x := FirstToUnlink(s.cb, if rx then s.rxq else s.txq).value;
      assert x in s.owner.Keys && x in s.cb.Keys;
      assert EntryHolds(s.owner[x], s.threads);
      assert s.cb[x].urb.Some? ==> s.cb[x].urb.value in s.holder.Keys;
    case UnlinkPut(t) =>
  }

  lemma KnownResuming(s: State, e: Event)
    requires IsResuming(e) && Enabled(s, e)
    requires AnchorList(s.deferred, s.holder) && s.refs.Keys == s.holder.Keys
    ensures NextResuming(s, e).refs.Keys == s.refs.Keys
  {
    if e.ResumeOne? {
      var u := s.deferred[0];
      assert u in s.deferred;
      assert u in s.holder.Keys;
    }
  }

  lemma KnownControl(s: State, e: Event)
    requires IsControl(e) && Enabled(s, e)
    requires RxQueue(s.rxq, s.owner) && TxQueue(s.txq, s.owner) && ViaEntries(s.cb, s.owner, s.holder, s.threads)
    requires PinRefs(s.refs, s.threads) && AnchorList(s.deferred, s.holder)
    requires s.refs.Keys == s.holder.Keys && s.cb.Keys == s.owner.Keys
    ensures NextControl(s, e).refs.Keys == s.refs.Keys
  {
    if IsUnlinking(e) {
      KnownUnlinking(s, e);
    } else if IsResuming(e) {
      KnownResuming(s, e);
    }
  }

  /** What the lemmas above need of the invariant. */
  ghost predicate Orderly(s: State) {
    && RxQueue(s.rxq, s.owner) && TxQueue(s.txq, s.owner) && Hands(s.threads, s.owner)
    && UrbHands(s.threads, s.holder) && CoreRefs(s.refs, s.hostRx, s.hostTx) && PinRefs(s.refs, s.threads)
    && ViaEntries(s.cb, s.owner, s.holder, s.threads) && AnchorList(s.deferred, s.holder)
    && s.refs.Keys == s.holder.Keys && s.cb.Keys == s.owner.Keys
  }

  lemma ReachableOrderly(s: State)
    requires Reachable(s)
    ensures Orderly(s)
  {
    ReachableInv(s);
  }

  lemma KnownReceive(s: State, e: Event)
    requires Orderly(s) && IsReceive(e) && Enabled(s, e)
    ensures NextReceive(s, e).refs.Keys == s.refs.Keys + NewUrb(e)
  {
    if IsCompletion(e) {
      KnownCompletion(s, e);
    } else if IsSubmission(e) {
      KnownSubmission(s, e);
    } else {
      KnownTasklet(s, e);
    }
  }

  lemma Known(s: State, e: Event)
    requires Reachable(s) && Enabled(s, e)
    ensures Next(s, e).refs.Keys == s.refs.Keys + NewUrb(e)
  {
    ReachableOrderly(s);
    if IsReceive(e) {
      KnownReceive(s, e);
    } else if IsSend(e) {
      KnownSend(s, e);
    } else {
      KnownControl(s, e);
    }
  }

  // ----- one event more --------------------------------------------------------------------

  lemma Fires(s: State, e: Event)
    requires Live(s) && Enabled(s, e)
    ensures var s' :=
        if IsCompletion(e) then NextCompletion(s, e)
        else if IsSubmission(e) then NextSubmission(s, e)
        else if IsTasklet(e) then NextTasklet(s, e)
        else if IsTransmit(e) then NextTransmit(s, e)
        else if IsSent(e) then NextSent(s, e)
        else if IsUnlinking(e) then NextUnlinking(s, e)
        else if IsSuspending(e) then NextSuspending(s, e)
        else NextResuming(s, e);
      Live(s') && Ran(s, s') && s'.refs.Keys == s.refs.Keys + NewUrb(e)
  {
    var s' := Next(s, e);
    assert Unfold(0);
    assert [e][1..] == [];
    assert Run(s, [e]) == Some(s');
    forall r | Leads(r, s)
      ensures Leads(r, s')
    {
      var es :| Run(r, es) == Some(s);
      RunConcat(r, es, [e]);
    }
    Known(s, e);
  }

  // ----- what a handler finds --------------------------------------------------------------

  /** With every handler at rest, the transfers at the host are those of the queued buffers. */
  lemma Pending(s: State, x: Skb, u: Urb)
    requires Live(s) && (forall t :: t in s.threads ==> s.threads[t].Unlinking?)
    requires x in s.cb && s.cb[x].urb == Some(u)
    ensures x in s.rxq ==> u in s.hostRx && u in s.ctx && s.ctx[u] == x
    ensures x in s.txq ==> u in s.hostTx && u in s.ctx && s.ctx[u] == x
  {
    assert Unfold(0);
    ReachableInv(s);
    if x in s.rxq {
      assert x in s.owner && s.owner[x].OnRxq?;
      assert s.owner[x].why.Host?;
      var v := s.owner[x].why.u;
      assert v in s.hostRx && v in s.ctx && s.ctx[v] == x;
    }
    if x in s.txq {
      assert x in s.owner && s.owner[x].OnTxq?;
      assert s.owner[x].why.Host?;
      var v := s.owner[x].why.u;
      assert v in s.hostTx && v in s.ctx && s.ctx[v] == x;
    }
  }

  /** Queues hold no buffer twice, and every queued buffer has its entry, which names a URB. */
  lemma Queued(s: State)
    requires Live(s) && (forall t :: t in s.threads ==> s.threads[t].Unlinking?)
    ensures NoDup(s.rxq) && NoDup(s.txq)
    ensures forall x :: x in s.rxq ==> x in s.cb && s.cb[x].urb.Some? && x !in s.txq
    ensures forall x :: x in s.txq ==> x in s.cb && s.cb[x].urb.Some? && x !in s.rxq
  {
    assert Unfold(0);
    ReachableInv(s);
    forall x | x in s.rxq
      ensures x in s.cb && s.cb[x].urb.Some? && x !in s.txq
    {
      assert x in s.owner && s.owner[x].OnRxq?;
      assert s.owner[x].why.Host?;
      var v := s.owner[x].why.u;
      assert v in s.hostRx && v in s.ctx && s.ctx[v] == x;
    }
  }

  lemma RxEntry(s: State, t: Tid, x: Skb)
    requires Live(s) && t in s.threads && s.threads[t].RxMid? && s.threads[t].x == x
    ensures x in s.cb
  {
    assert Unfold(0);
    ReachableInv(s);
    assert LocalState(s.threads[t], s.cb);
  }

  lemma TopEntry(s: State, t: Tid, x: Skb)
    requires Live(s) && t in s.threads && s.threads[t].RxTop? && s.threads[t].x == x
    ensures x in s.cb
  {
    assert Unfold(0);
    ReachableInv(s);
    assert Linked(s.threads[t]) == Some((s.threads[t].u, x));
  }

  lemma TxEntry(s: State, t: Tid, x: Skb)
    requires Live(s) && t in s.threads && s.threads[t].TxMid? && s.threads[t].x == x
    ensures x in s.cb
  {
    assert Unfold(0);
    ReachableInv(s);
    assert TxDoing(s.threads[t]) == Some(x);
  }

  lemma DoneEntries(s: State)
    requires Live(s)
    ensures NoDup(s.done)
    ensures forall x :: x in s.done ==>
              x in s.cb && (s.cb[x].state.RxDone? || s.cb[x].state.TxDone? || s.cb[x].state.RxCleanup?)
              && (s.cb[x].state.RxDone? ==> s.cb[x].urb.None?)
  {
    assert Unfold(0);
    ReachableInv(s);
  }

  lemma BhEntry(s: State, t: Tid, x: Skb)
    requires Live(s) && t in s.threads && s.threads[t].BhHas? && s.threads[t].x == x
    ensures x in s.cb && (s.cb[x].state.RxDone? || s.cb[x].state.TxDone? || s.cb[x].state.RxCleanup?)
    ensures x !in s.done
  {
    assert Unfold(0);
    ReachableInv(s);
    assert LocalState(s.threads[t], s.cb);
    assert HandSkb(s.threads[t]) == Some(x);
  }

  lemma AnchorHead(s: State)
    requires Live(s) && s.deferred != []
    ensures s.deferred[0] in s.ctx
  {
    assert Unfold(0);
    ReachableInv(s);
    DeferredHead(s);
  }
}
