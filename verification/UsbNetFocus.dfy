/** What the invariant says, before an event, about the thread, buffer and URB it will touch. */
module UsbNetFocus {
  import opened Basics
  import opened UsbNetModel
  import opened UsbNetInvariant
  import opened UsbNetLocality

  ghost predicate Tidy(s: State) {
    && s.cb.Keys == s.owner.Keys && s.refs.Keys == s.holder.Keys && s.ctx.Keys <= s.refs.Keys
    && NoDup(s.rxq) && NoDup(s.txq) && NoDup(s.done) && NoDup(s.pause) && NoDup(s.deferred)
    && NoDup(s.skbFrees) && NoDup(s.urbFrees) && NoDup(s.accepted) && NoDup(s.unlinkCalls)
    && (s.swept ==> s.asleep)
    && Sleeping(s.asleep, s.draining, s.suspendCount, s.swept, s.deferred)
    && Power(s.power, s.hostTx, s.deferred)
  }

  ghost predicate Focus(s: State, t: Option<Tid>, x: Option<Skb>, u: Option<Urb>) {
    && Tidy(s) && Private(s, t, x, u)
    && ThreadSettled(s, t, x, u) && BufferSettled(s, t, x, u) && UrbSettled(s, t, x, u)
  }

  ghost function SkbOf(l: Local): Option<Skb> {
    if HandSkb(l).Some? then HandSkb(l)
    else if RxDoing(l).Some? then RxDoing(l)
    else TxDoing(l)
  }

  ghost function UrbOf(s: State, l: Local): Option<Urb> {
    if HandUrb(l).Some? then HandUrb(l)
    else if SkbOf(l).Some? then Cb(s, SkbOf(l).value).urb
    else None
  }

  lemma FocusTidy(s: State)
    requires Inv(s)
    ensures Tidy(s)
  {
  }

  /** A buffer with the URB its entry names, and the thread, if any, that owns or completes it. */
  ghost predicate Focal(s: State, t: Option<Tid>, x: Skb, u: Option<Urb>) {
    && x in s.owner && x in s.cb && IsOr(s.cb[x].urb, u)
    && match s.owner[x]
       case InHand(t') => t == Some(t')
       case OnRxq(Handler(t')) => t == Some(t')
       case OnRxq(Host(v)) => u == Some(v)
       case OnTxq(Handler(t')) => t == Some(t')
       case OnTxq(Host(v)) => u == Some(v)
       case OnAnchor => u == s.cb[x].urb
       case _ => true
  }

  lemma FocusQueues(s: State, x: Skb)
    requires RxQueue(s.rxq, s.owner) && TxQueue(s.txq, s.owner) && DoneQueue(s.done, s.owner)
    requires PauseQueue(s.pause, s.owner)
    requires Domains(s.cb, s.owner, s.ctx, s.refs, s.holder)
    requires Freeing(s.owner, s.holder, s.skbFrees, s.urbFrees)
    requires AcceptedOnce(s.accepted, s.owner, s.threads)
    requires Submitted(s.unlinkCalls, s.resumed, s.owner, s.threads)
    ensures x in s.cb <==> x in s.owner
    ensures x in s.rxq <==> x in s.owner && s.owner[x].OnRxq?
    ensures x in s.txq <==> x in s.owner && s.owner[x].OnTxq?
    ensures x in s.done <==> x in s.owner && s.owner[x].OnDone?
    ensures x in s.pause <==> x in s.owner && s.owner[x].OnPause?
    ensures x in s.skbFrees <==> x in s.owner && s.owner[x].Freed?
    ensures x in s.accepted || x in s.unlinkCalls || x in s.resumed ==> x in s.owner
  {
  }

  lemma FocusBuffer(s: State, t: Option<Tid>, x: Skb, u: Option<Urb>)
    requires Inv(s) && Focal(s, t, x, u)
    ensures BufferSettled(s, t, Some(x), u)
  {
    FocusQueues(s, x);
    assert BufferOk(s, t, x, u);
  }

  lemma FocusThread(s: State, t: Tid)
    requires Inv(s) && t in s.threads && !s.threads[t].Unlinking?
    ensures var l := s.threads[t]; ThreadSettled(s, Some(t), SkbOf(l), UrbOf(s, l))
  {
  }

  /** A URB with the buffer it carries: the one whose entry holds it, or that waits with it. */
  ghost predicate FocalUrb(s: State, t: Option<Tid>, x: Option<Skb>, u: Urb) {
    && u in s.holder
    && match s.holder[u]
       case HeldBy(t') => t == Some(t')
       case ViaEntry(y) => x == Some(y)
       case ViaAnchor => u in s.ctx && x == Some(s.ctx[u])
       case Gone => false
  }

  lemma FocusUrb(s: State, t: Option<Tid>, x: Option<Skb>, u: Urb)
    requires Inv(s) && FocalUrb(s, t, x, u)
    ensures UrbSettled(s, t, x, Some(u))
  {
    if u in s.hostRx {
      assert EntryHolds(s.owner[s.ctx[u]], s.threads);
    }
    if u in s.hostTx {
      assert EntryHolds(s.owner[s.ctx[u]], s.threads);
    }
  }

  lemma FocusIdle(s: State, t: Option<Tid>, x: Option<Skb>, u: Option<Urb>)
    requires RxLock(s.rxLock, s.threads) && (t.Some? ==> t.value !in s.threads)
    ensures ThreadSettled(s, t, x, u)
  {
    if t.Some? {
      var t' := t.value;
      assert t' !in s.threads;
    }
  }

  lemma FocalOn(s: State, t: Tid)
    requires Domains(s.cb, s.owner, s.ctx, s.refs, s.holder)
    requires Hands(s.threads, s.owner) && RxDoers(s.threads, s.owner) && TxDoers(s.threads, s.owner)
    requires UrbHands(s.threads, s.holder) && Links(s.threads, s.cb, s.ctx) && LocalStates(s.threads, s.cb)
    requires t in s.threads
    ensures var l := s.threads[t]; SkbOf(l).Some? ==> Focal(s, Some(t), SkbOf(l).value, UrbOf(s, l))
    ensures var l := s.threads[t];
      UrbOf(s, l).Some? && HandUrb(l).None? ==> EntryHolds(s.owner[SkbOf(l).value], s.threads)
  {
    assert LocalState(s.threads[t], s.cb);
  }

  lemma FocusOn(s: State, t: Tid)
    requires Inv(s) && t in s.threads && !s.threads[t].Unlinking?
    ensures var l := s.threads[t]; Focus(s, Some(t), SkbOf(l), UrbOf(s, l))
  {
    FocusTidy(s);
    FocusThread(s, t);
    FocalOn(s, t);
    FocusParts(s, t, SkbOf(s.threads[t]), UrbOf(s, s.threads[t]));
  }

  lemma FocusParts(s: State, t: Tid, x: Option<Skb>, u: Option<Urb>)
    requires Inv(s)
    requires x.Some? ==> Focal(s, Some(t), x.value, u)
    requires u.Some? ==> u.value in s.holder && FocalUrb(s, Some(t), x, u.value)
    ensures BufferSettled(s, Some(t), x, u) && UrbSettled(s, Some(t), x, u)
  {
    if x.Some? {
      FocusBuffer(s, Some(t), x.value, u);
    }
    if u.Some? {
      FocusUrb(s, Some(t), x, u.value);
    }
  }

  lemma FocusHost(s: State, t: Tid, u: Urb)
    requires Inv(s) && t !in s.threads && (u in s.hostRx || u in s.hostTx)
    ensures u in s.ctx && Focus(s, Some(t), Some(s.ctx[u]), Some(u))
    ensures u in s.hostRx ==> s.ctx[u] in s.owner && s.owner[s.ctx[u]] == OnRxq(Host(u)) && u !in s.hostTx
    ensures u in s.hostTx ==> s.ctx[u] in s.owner && s.owner[s.ctx[u]] == OnTxq(Host(u)) && u !in s.hostRx
  {
    FocusTidy(s);
    FocusIdle(s, Some(t), Some(s.ctx[u]), Some(u));
    FocusBuffer(s, Some(t), s.ctx[u], Some(u));
    assert EntryHolds(s.owner[s.ctx[u]], s.threads);
    FocusUrb(s, Some(t), Some(s.ctx[u]), u);
  }

  /** A buffer on a queue that no thread is working on. */
  lemma FocusRest(s: State, t: Option<Tid>, x: Skb)
    requires Inv(s) && (t.Some? ==> t.value !in s.threads)
    requires x in s.owner && (s.owner[x].OnDone? || s.owner[x].OnPause? || s.owner[x].OnAnchor?)
    ensures x in s.cb && Focus(s, t, Some(x), s.cb[x].urb)
  {
    FocusTidy(s);
    FocusIdle(s, t, Some(x), s.cb[x].urb);
    FocusBuffer(s, t, x, s.cb[x].urb);
    if s.cb[x].urb.Some? {
      assert FocalUrb(s, t, Some(x), s.cb[x].urb.value) by {
        if s.owner[x].OnDone? {
          assert EntryHolds(s.owner[x], s.threads);
        }
      }
      FocusUrb(s, t, Some(x), s.cb[x].urb.value);
    }
  }

  /** Identifiers not in use. */
  lemma FocusFresh(s: State, t: Option<Tid>, x: Option<Skb>, u: Option<Urb>)
    requires Inv(s) && (t.Some? ==> t.value !in s.threads)
    requires x.Some? ==> x.value !in s.cb
    requires u.Some? ==> u.value !in s.refs
    ensures Focus(s, t, x, u)
  {
    FocusTidy(s);
    FocusIdle(s, t, x, u);
    if x.Some? {
      FocusQueues(s, x.value);
    }
  }
}
