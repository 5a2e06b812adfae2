/**
 The invariant is local: an event that touches one thread, one buffer and one URB, all of which
 it has to itself, keeps it as soon as the touched three are in order afterwards.
 */
module UsbNetLocality {
  import opened Basics
  import opened UsbNetModel
  import opened UsbNetInvariant

  ghost predicate Same<K(!new), V>(m: map<K, V>, m': map<K, V>, k: Option<K>) {
    forall y :: Some(y) != k ==> (y in m <==> y in m') && (y in m ==> m'[y] == m[y])
  }

  ghost predicate SameSet<K(!new)>(m: set<K>, m': set<K>, k: Option<K>) {
    forall y :: Some(y) != k ==> (y in m <==> y in m')
  }

  ghost predicate SameSeq<K(!new)>(q: seq<K>, q': seq<K>, k: Option<K>) {
    NoDup(q') && forall y :: Some(y) != k ==> (y in q <==> y in q')
  }

  /** Everything but thread t, buffer x and URB u is as before. */
  ghost predicate Moves(s: State, s': State, t: Option<Tid>, x: Option<Skb>, u: Option<Urb>) {
    SameRecords(s, s', t, x, u) && SameQueues(s, s', t, x, u)
  }

  ghost predicate SameRecords(s: State, s': State, t: Option<Tid>, x: Option<Skb>, u: Option<Urb>) {
    && Same(s.threads, s'.threads, t)
    && Same(s.cb, s'.cb, x) && Same(s.owner, s'.owner, x)
    && Same(s.ctx, s'.ctx, u) && Same(s.refs, s'.refs, u) && Same(s.holder, s'.holder, u)
    && Same(s.resumed, s'.resumed, x)
    && (s'.swept ==> s.swept) && (s'.swept ==> s'.asleep)
  }

  ghost predicate SameQueues(s: State, s': State, t: Option<Tid>, x: Option<Skb>, u: Option<Urb>) {
    && SameSeq(s.rxq, s'.rxq, x) && SameSeq(s.txq, s'.txq, x)
    && SameSeq(s.done, s'.done, x) && SameSeq(s.pause, s'.pause, x)
    && SameSeq(s.deferred, s'.deferred, u)
    && SameSet(s.hostRx, s'.hostRx, u) && SameSet(s.hostTx, s'.hostTx, u)
    && SameSeq(s.skbFrees, s'.skbFrees, x) && SameSeq(s.urbFrees, s'.urbFrees, u)
    && SameSeq(s.accepted, s'.accepted, x)
    && SameSeq(s.unlinkCalls, s'.unlinkCalls, x)
  }

  ghost predicate IsOr<T>(o: Option<T>, k: Option<T>) {
    o.None? || o == k
  }

  /** A live thread, an existing buffer, an existing URB: those the event may find. */
  ghost predicate Private(s: State, t: Option<Tid>, x: Option<Skb>, u: Option<Urb>) {
    && (x.Some? && x.value in s.owner ==>
          && x.value in s.cb && IsOr(s.cb[x.value].urb, u)
          && match s.owner[x.value]
             case InHand(t') => t == Some(t')
             case OnRxq(why) => (match why case Handler(t') => t == Some(t') case Host(v) => u == Some(v))
             case OnTxq(why) => (match why case Handler(t') => t == Some(t') case Host(v) => u == Some(v))
             case _ => true)
    && (u.Some? && u.value in s.holder ==>
          match s.holder[u.value]
          case HeldBy(t') => t == Some(t')
          case ViaEntry(y) => x == Some(y)
          case ViaAnchor => u.value in s.ctx && x == Some(s.ctx[u.value])
          case Gone => false)
    && (t.Some? && t.value in s.threads ==>
          var l := s.threads[t.value];
          && IsOr(HandSkb(l), x) && IsOr(RxDoing(l), x) && IsOr(TxDoing(l), x) && IsOr(HandUrb(l), u)
          && !l.Unlinking?)
  }

  /** Thread t is in order. */
  ghost predicate ThreadSettled(s: State, t: Option<Tid>, x: Option<Skb>, u: Option<Urb>) {
    && (t.Some? && t.value in s.threads ==>
          var l := s.threads[t.value];
          && IsOr(HandSkb(l), x) && IsOr(RxDoing(l), x) && IsOr(TxDoing(l), x) && IsOr(HandUrb(l), u)
          && !l.Unlinking?
          && (HandSkb(l).Some? ==> x.value in s.owner && s.owner[x.value] == InHand(t.value))
          && (RxDoing(l).Some? ==> x.value in s.owner && s.owner[x.value] == OnRxq(Handler(t.value)))
          && (TxDoing(l).Some? ==> x.value in s.owner && s.owner[x.value] == OnTxq(Handler(t.value)))
          && (HandUrb(l).Some? ==> u.value in s.holder && s.holder[u.value] == HeldBy(t.value))
          && (Linked(l).Some? ==>
                && u.Some? && x.Some? && Linked(l).value == (u.value, x.value)
                && x.value in s.cb && s.cb[x.value].urb == u && u.value in s.ctx && s.ctx[u.value] == x.value)
          && LocalState(l, s.cb)
          && (l.Xmit? ==> l.x !in s.accepted)
          && Keeps(l, s.ctx, s.owner, s.threads, s.unlinkCalls)
          && (l.Locked? && s.swept ==> !l.go))
    && (t.Some? ==> (s.rxLock == t <==> t.value in s.threads && s.threads[t.value].Locked?))
  }

  /** Buffer x is in order. */
  ghost predicate BufferSettled(s: State, t: Option<Tid>, x: Option<Skb>, u: Option<Urb>) {
    x.Some? ==>
      var y := x.value;
      && (y in s.cb <==> y in s.owner)
      && (y in s.rxq <==> y in s.owner && s.owner[y].OnRxq?)
      && (y in s.txq <==> y in s.owner && s.owner[y].OnTxq?)
      && (y in s.done <==> y in s.owner && s.owner[y].OnDone?)
      && (y in s.pause <==> y in s.owner && s.owner[y].OnPause?)
      && (y in s.skbFrees <==> y in s.owner && s.owner[y].Freed?)
      && (y in s.accepted || y in s.unlinkCalls || y in s.resumed ==> y in s.owner)
      && (y in s.owner ==> BufferOk(s, t, y, u))
  }

  ghost predicate BufferOk(s: State, t: Option<Tid>, y: Skb, u: Option<Urb>)
    requires y in s.owner && y in s.cb
  {
    && IsOr(s.cb[y].urb, u)
    && (match s.owner[y]
        case InHand(t') => t == Some(t') && t' in s.threads && HandSkb(s.threads[t']) == Some(y)
        case OnRxq(why) =>
          && (match why
              case Handler(t') => t == Some(t') && t' in s.threads && RxDoing(s.threads[t']) == Some(y)
              case Host(v) => u == Some(v) && s.cb[y].urb == u && v in s.hostRx && v in s.ctx && s.ctx[v] == y)
          && (s.cb[y].state == UnlinkStart <==> y in s.unlinkCalls)
          && (s.swept ==> s.cb[y].state == UnlinkStart)
          && y !in s.resumed
        case OnTxq(why) =>
          && (match why
              case Handler(t') => t == Some(t') && t' in s.threads && TxDoing(s.threads[t']) == Some(y)
              case Host(v) => u == Some(v) && s.cb[y].urb == u && v in s.hostTx && v in s.ctx && s.ctx[v] == y)
          && s.cb[y].urb.Some?
          && (s.cb[y].state == UnlinkStart <==> y in s.unlinkCalls || (y in s.resumed && s.resumed[y] == UnlinkStart))
        case OnDone => Finished(s.cb[y])
        case OnPause => s.cb[y].urb.None?
        case OnAnchor =>
          && s.cb[y].urb.Some? && u == s.cb[y].urb
          && u.value in s.deferred && u.value in s.ctx && s.ctx[u.value] == y
        case WithStack => true
        case Freed => true
        case Leaked => false)
    && (EntryHolds(s.owner[y], s.threads) && s.cb[y].urb.Some? ==>
          u.value in s.holder && s.holder[u.value] == ViaEntry(y))
    && (y in s.unlinkCalls ==> PastSubmission(s.owner[y], s.threads))
    && (y in s.resumed ==> PastSubmission(s.owner[y], s.threads))
  }

  /** URB u is in order. */
  ghost predicate UrbSettled(s: State, t: Option<Tid>, x: Option<Skb>, u: Option<Urb>) {
    u.Some? ==>
      var v := u.value;
      && (v in s.refs <==> v in s.holder) && (v in s.ctx ==> v in s.refs)
      && (v in s.deferred <==> v in s.holder && s.holder[v].ViaAnchor?)
      && (v in s.urbFrees <==> v in s.holder && s.holder[v].Gone?)
      && (v in s.hostRx ==>
            && v in s.refs && x.Some? && v in s.ctx && s.ctx[v] == x.value
            && x.value in s.owner && s.owner[x.value] == OnRxq(Host(v)) && x.value in s.cb && s.cb[x.value].urb == u)
      && (v in s.hostTx ==>
            && v in s.refs && x.Some? && v in s.ctx && s.ctx[v] == x.value
            && x.value in s.owner && s.owner[x.value] == OnTxq(Host(v)) && x.value in s.cb && s.cb[x.value].urb == u)
      && (v in s.refs && v in s.holder ==>
            && (Base in s.refs[v] <==> !s.holder[v].Gone?)
            && (Core in s.refs[v] <==> v in s.hostRx || v in s.hostTx)
            && (match s.holder[v]
                case HeldBy(t') => t == Some(t') && t' in s.threads && HandUrb(s.threads[t']) == u
                case ViaEntry(y) =>
                  && x == Some(y) && y in s.cb && y in s.owner && s.cb[y].urb == u && EntryHolds(s.owner[y], s.threads)
                  && v in s.ctx && s.ctx[v] == y
                case ViaAnchor =>
                  && x.Some? && v in s.ctx && s.ctx[v] == x.value
                  && x.value in s.owner && s.owner[x.value] == OnAnchor && x.value in s.cb && s.cb[x.value].urb == u
                case Gone => true))
  }

  /** What the event does to facts that speak of two moments. */
  ghost predicate Consistent(s: State, s': State, t: Option<Tid>, x: Option<Skb>, u: Option<Urb>) {
    && (s'.rxLock == s.rxLock || (IsOr(s.rxLock, t) && IsOr(s'.rxLock, t)))
    && (u.Some? ==> forall p: Tid :: Pin(p) in Refs(s', u.value) <==> Pin(p) in Refs(s, u.value))
    && (x.Some? && x.value in s.unlinkCalls ==> x.value in s'.unlinkCalls)
    && (x.Some? && x.value in s'.unlinkCalls && x.value !in s.unlinkCalls ==>
          x.value in s.owner && (s.owner[x.value].OnRxq? || s.owner[x.value].OnTxq?))
    && (u.Some? && u.value in s.ctx ==>
          u.value in s'.ctx && (s'.ctx[u.value] == s.ctx[u.value] || s.ctx[u.value] !in s.unlinkCalls))
    && (x.Some? && x.value in s.owner && Retired(s.owner[x.value], s.threads) ==>
          x.value in s'.owner && Retired(s'.owner[x.value], s'.threads))
  }

  /** The event is local to t, x and u, and leaves them in order. */
  ghost predicate Local3(s: State, s': State, t: Option<Tid>, x: Option<Skb>, u: Option<Urb>) {
    && Moves(s, s', t, x, u) && Private(s, t, x, u) && Consistent(s, s', t, x, u)
    && ThreadSettled(s', t, x, u) && BufferSettled(s', t, x, u) && UrbSettled(s', t, x, u)
  }

  // ----- one lemma a conjunct --------------------------------------------------------------

  lemma LocalQueues(s: State, s': State, t: Option<Tid>, x: Option<Skb>, u: Option<Urb>)
    requires Moves(s, s', t, x, u) && BufferSettled(s', t, x, u)
    requires RxQueue(s.rxq, s.owner)
    requires TxQueue(s.txq, s.owner)
    ensures RxQueue(s'.rxq, s'.owner)
    ensures TxQueue(s'.txq, s'.owner)
  {
  }

  lemma LocalPauseQueues(s: State, s': State, t: Option<Tid>, x: Option<Skb>, u: Option<Urb>)
    requires Moves(s, s', t, x, u) && BufferSettled(s', t, x, u)
    requires DoneQueue(s.done, s.owner)
    requires PauseQueue(s.pause, s.owner)
    ensures DoneQueue(s'.done, s'.owner)
    ensures PauseQueue(s'.pause, s'.owner)
  {
  }

  lemma LocalDomains(s: State, s': State, t: Option<Tid>, x: Option<Skb>, u: Option<Urb>)
    requires Moves(s, s', t, x, u) && BufferSettled(s', t, x, u) && UrbSettled(s', t, x, u)
    requires Domains(s.cb, s.owner, s.ctx, s.refs, s.holder)
    ensures Domains(s'.cb, s'.owner, s'.ctx, s'.refs, s'.holder)
  {
  }

  lemma LocalHands(s: State, s': State, t: Option<Tid>, x: Option<Skb>, u: Option<Urb>)
    requires Moves(s, s', t, x, u) && Private(s, t, x, u) && ThreadSettled(s', t, x, u) && BufferSettled(s', t, x, u)
    requires Hands(s.threads, s.owner)
    ensures Hands(s'.threads, s'.owner)
  {
  }

  lemma LocalRxDoers(s: State, s': State, t: Option<Tid>, x: Option<Skb>, u: Option<Urb>)
    requires Moves(s, s', t, x, u) && Private(s, t, x, u) && ThreadSettled(s', t, x, u) && BufferSettled(s', t, x, u)
    requires RxDoers(s.threads, s.owner)
    ensures RxDoers(s'.threads, s'.owner)
  {
  }

  lemma LocalTxDoers(s: State, s': State, t: Option<Tid>, x: Option<Skb>, u: Option<Urb>)
    requires Moves(s, s', t, x, u) && Private(s, t, x, u) && ThreadSettled(s', t, x, u) && BufferSettled(s', t, x, u)
    requires TxDoers(s.threads, s.owner)
    ensures TxDoers(s'.threads, s'.owner)
  {
  }

  lemma LocalUrbHands(s: State, s': State, t: Option<Tid>, x: Option<Skb>, u: Option<Urb>)
    requires Same(s.threads, s'.threads, t) && Same(s.holder, s'.holder, u)
    requires u.Some? && u.value in s.holder && s.holder[u.value].HeldBy? ==> t == Some(s.holder[u.value].t)
    requires t.Some? && t.value in s.threads ==> IsOr(HandUrb(s.threads[t.value]), u)
    requires t.Some? && t.value in s'.threads && HandUrb(s'.threads[t.value]).Some? ==>
               u == HandUrb(s'.threads[t.value]) && u.value in s'.holder && s'.holder[u.value] == HeldBy(t.value)
    requires u.Some? && u.value in s'.holder && s'.holder[u.value].HeldBy? ==>
               t == Some(s'.holder[u.value].t) && t.value in s'.threads && HandUrb(s'.threads[t.value]) == u
    requires UrbHands(s.threads, s.holder)
    ensures UrbHands(s'.threads, s'.holder)
  {
  }

  lemma LocalViaContexts(s: State, s': State, t: Option<Tid>, x: Option<Skb>, u: Option<Urb>)
    requires Moves(s, s', t, x, u) && UrbSettled(s', t, x, u)
    requires Domains(s'.cb, s'.owner, s'.ctx, s'.refs, s'.holder)
    requires ViaContexts(s.holder, s.ctx)
    ensures ViaContexts(s'.holder, s'.ctx)
  {
  }

  lemma LocalLinks(s: State, s': State, t: Option<Tid>, x: Option<Skb>, u: Option<Urb>)
    requires Moves(s, s', t, x, u) && Private(s, t, x, u) && ThreadSettled(s', t, x, u)
    requires Links(s.threads, s.cb, s.ctx)
    requires Hands(s.threads, s.owner) && RxDoers(s.threads, s.owner)
    requires UrbHands(s.threads, s.holder) && ViaEntries(s.cb, s.owner, s.holder, s.threads)
    ensures Links(s'.threads, s'.cb, s'.ctx)
  {
    forall t' | t' in s'.threads && Some(t') != t && Linked(s'.threads[t']).Some?
      ensures var (v, y) := Linked(s'.threads[t']).value;
        y in s'.cb && s'.cb[y].urb == Some(v) && v in s'.ctx && s'.ctx[v] == y
    {
      var l := s.threads[t'];
      var (v, y) := Linked(l).value;
      assert HandSkb(l) == Some(y) || RxDoing(l) == Some(y);
      assert Some(y) != x;
      assert HandUrb(l) == Some(v) || EntryHolds(s.owner[y], s.threads);
      assert Some(v) != u;
    }
  }

  /** Whether another buffer's entry holds its URB does not change: the thread that may is another. */
  lemma LocalEntryHolds(s: State, s': State, t: Option<Tid>, x: Option<Skb>, u: Option<Urb>)
    requires Same(s.threads, s'.threads, t) && Same(s.cb, s'.cb, x) && Same(s.owner, s'.owner, x)
    requires Same(s.holder, s'.holder, u)
    requires t.Some? && t.value in s.threads ==> IsOr(HandSkb(s.threads[t.value]), x)
    requires Hands(s.threads, s.owner)
    ensures forall y :: Some(y) != x && y in s.owner && y in s'.owner ==>
              EntryHolds(s'.owner[y], s'.threads) == EntryHolds(s.owner[y], s.threads)
  {
  }

  lemma LocalEntryHeld(s: State, s': State, t: Option<Tid>, x: Option<Skb>, u: Option<Urb>)
    requires Same(s.threads, s'.threads, t) && Same(s.cb, s'.cb, x) && Same(s.owner, s'.owner, x)
    requires Same(s.holder, s'.holder, u)
    requires t.Some? && t.value in s.threads ==> IsOr(HandSkb(s.threads[t.value]), x)
    requires u.Some? && u.value in s.holder && s.holder[u.value].ViaEntry? ==> x == Some(s.holder[u.value].x)
    requires (x.Some? && x.value in s'.owner && x.value in s'.cb && EntryHolds(s'.owner[x.value], s'.threads)
              && s'.cb[x.value].urb.Some?) ==>
               u == s'.cb[x.value].urb && u.value in s'.holder && s'.holder[u.value] == ViaEntry(x.value)
    requires ViaEntries(s.cb, s.owner, s.holder, s.threads)
    requires Hands(s.threads, s.owner)
    ensures EntriesHold(s'.cb, s'.owner, s'.holder, s'.threads)
  {
    LocalEntryHolds(s, s', t, x, u);
  }

  lemma LocalHeldByEntry(s: State, s': State, t: Option<Tid>, x: Option<Skb>, u: Option<Urb>)
    requires Same(s.threads, s'.threads, t) && Same(s.cb, s'.cb, x) && Same(s.owner, s'.owner, x)
    requires Same(s.holder, s'.holder, u)
    requires t.Some? && t.value in s.threads ==> IsOr(HandSkb(s.threads[t.value]), x)
    requires x.Some? && x.value in s.owner && x.value in s.cb ==> IsOr(s.cb[x.value].urb, u)
    requires u.Some? && u.value in s'.holder && s'.holder[u.value].ViaEntry? ==>
               && x == Some(s'.holder[u.value].x) && x.value in s'.cb && x.value in s'.owner
               && s'.cb[x.value].urb == u && EntryHolds(s'.owner[x.value], s'.threads)
    requires ViaEntries(s.cb, s.owner, s.holder, s.threads)
    requires Hands(s.threads, s.owner)
    ensures HeldByEntries(s'.cb, s'.owner, s'.holder, s'.threads)
  {
    LocalEntryHolds(s, s', t, x, u);
  }

  lemma LocalViaEntries(s: State, s': State, t: Option<Tid>, x: Option<Skb>, u: Option<Urb>)
    requires Same(s.threads, s'.threads, t) && Same(s.cb, s'.cb, x) && Same(s.owner, s'.owner, x)
    requires Same(s.holder, s'.holder, u)
    requires t.Some? && t.value in s.threads ==> IsOr(HandSkb(s.threads[t.value]), x)
    requires x.Some? && x.value in s.owner && x.value in s.cb ==> IsOr(s.cb[x.value].urb, u)
    requires u.Some? && u.value in s.holder && s.holder[u.value].ViaEntry? ==> x == Some(s.holder[u.value].x)
    requires (x.Some? && x.value in s'.owner && x.value in s'.cb && EntryHolds(s'.owner[x.value], s'.threads)
              && s'.cb[x.value].urb.Some?) ==>
               u == s'.cb[x.value].urb && u.value in s'.holder && s'.holder[u.value] == ViaEntry(x.value)
    requires u.Some? && u.value in s'.holder && s'.holder[u.value].ViaEntry? ==>
               && x == Some(s'.holder[u.value].x) && x.value in s'.cb && x.value in s'.owner
               && s'.cb[x.value].urb == u && EntryHolds(s'.owner[x.value], s'.threads)
    requires ViaEntries(s.cb, s.owner, s.holder, s.threads)
    requires Hands(s.threads, s.owner)
    ensures ViaEntries(s'.cb, s'.owner, s'.holder, s'.threads)
  {
    LocalEntryHeld(s, s', t, x, u);
    LocalHeldByEntry(s, s', t, x, u);
  }

  lemma LocalAnchorList(s: State, s': State, t: Option<Tid>, x: Option<Skb>, u: Option<Urb>)
    requires Moves(s, s', t, x, u) && UrbSettled(s', t, x, u)
    requires AnchorList(s.deferred, s.holder)
    ensures AnchorList(s'.deferred, s'.holder)
  {
  }

  lemma LocalAnchorLinks(s: State, s': State, t: Option<Tid>, x: Option<Skb>, u: Option<Urb>)
    requires Moves(s, s', t, x, u)
    requires x.Some? && x.value in s.owner ==> x.value in s.cb && IsOr(s.cb[x.value].urb, u)
    requires u.Some? && u.value in s.deferred ==> u.value in s.ctx && x == Some(s.ctx[u.value])
    requires x.Some? && x.value in s'.owner && s'.owner[x.value].OnAnchor? && x.value in s'.cb ==>
               && u.Some? && u == s'.cb[x.value].urb && u.value in s'.deferred
               && u.value in s'.ctx && s'.ctx[u.value] == x.value
    requires u.Some? && u.value in s'.deferred ==>
               x.Some? && u.value in s'.ctx && s'.ctx[u.value] == x.value
               && x.value in s'.owner && s'.owner[x.value].OnAnchor? && x.value in s'.cb && s'.cb[x.value].urb == u
    requires AnchorLinks(s.deferred, s.cb, s.owner, s.ctx)
    ensures AnchorLinks(s'.deferred, s'.cb, s'.owner, s'.ctx)
  {
  }

  /** A URB at the host controller is held by the entry of the buffer it points at. */
  lemma LocalHostLinks(s: State, u: Option<Urb>)
    requires HostRx(s.hostRx, s.cb, s.owner, s.ctx) && HostTx(s.hostTx, s.cb, s.owner, s.ctx)
    requires ViaEntries(s.cb, s.owner, s.holder, s.threads)
    ensures u.Some? && (u.value in s.hostRx || u.value in s.hostTx) ==>
              u.value in s.ctx && u.value in s.holder && s.holder[u.value] == ViaEntry(s.ctx[u.value])
  {
    if u.Some? && (u.value in s.hostRx || u.value in s.hostTx) {
      var v := u.value;
      assert v in s.hostRx || v in s.hostTx;
      var y := s.ctx[v];
      assert y in s.owner && y in s.cb && s.cb[y].urb == Some(v) && EntryHolds(s.owner[y], s.threads);
    }
  }

  lemma LocalHostRx(s: State, s': State, t: Option<Tid>, x: Option<Skb>, u: Option<Urb>)
    requires Same(s.cb, s'.cb, x) && Same(s.owner, s'.owner, x) && Same(s.ctx, s'.ctx, u)
    requires SameSet(s.hostRx, s'.hostRx, u)
    requires x.Some? && x.value in s.owner && s.owner[x.value].OnRxq? && s.owner[x.value].why.Host? ==>
               u == Some(s.owner[x.value].why.u)
    requires u.Some? && u.value in s.hostRx ==> u.value in s.ctx && x == Some(s.ctx[u.value])
    requires u.Some? && u.value in s'.hostRx ==>
               && x.Some? && u.value in s'.ctx && s'.ctx[u.value] == x.value
               && x.value in s'.owner && s'.owner[x.value] == OnRxq(Host(u.value))
               && x.value in s'.cb && s'.cb[x.value].urb == u
    requires x.Some? && x.value in s'.owner && s'.owner[x.value].OnRxq? && s'.owner[x.value].why.Host? ==>
               && u == Some(s'.owner[x.value].why.u) && u.value in s'.hostRx
               && u.value in s'.ctx && s'.ctx[u.value] == x.value
    requires HostRx(s.hostRx, s.cb, s.owner, s.ctx)
    ensures HostRx(s'.hostRx, s'.cb, s'.owner, s'.ctx)
  {
  }

  lemma LocalHostTx(s: State, s': State, t: Option<Tid>, x: Option<Skb>, u: Option<Urb>)
    requires Same(s.cb, s'.cb, x) && Same(s.owner, s'.owner, x) && Same(s.ctx, s'.ctx, u)
    requires SameSet(s.hostTx, s'.hostTx, u)
    requires x.Some? && x.value in s.owner && s.owner[x.value].OnTxq? && s.owner[x.value].why.Host? ==>
               u == Some(s.owner[x.value].why.u)
    requires u.Some? && u.value in s.hostTx ==> u.value in s.ctx && x == Some(s.ctx[u.value])
    requires u.Some? && u.value in s'.hostTx ==>
               && x.Some? && u.value in s'.ctx && s'.ctx[u.value] == x.value
               && x.value in s'.owner && s'.owner[x.value] == OnTxq(Host(u.value))
               && x.value in s'.cb && s'.cb[x.value].urb == u
    requires x.Some? && x.value in s'.owner && s'.owner[x.value].OnTxq? && s'.owner[x.value].why.Host? ==>
               && u == Some(s'.owner[x.value].why.u) && u.value in s'.hostTx
               && u.value in s'.ctx && s'.ctx[u.value] == x.value
    requires HostTx(s.hostTx, s.cb, s.owner, s.ctx)
    ensures HostTx(s'.hostTx, s'.cb, s'.owner, s'.ctx)
  {
  }

  lemma LocalBaseRefs(s: State, s': State, t: Option<Tid>, x: Option<Skb>, u: Option<Urb>)
    requires Moves(s, s', t, x, u) && UrbSettled(s', t, x, u)
    requires BaseRefs(s.refs, s.holder)
    ensures BaseRefs(s'.refs, s'.holder)
  {
  }

  lemma LocalCoreRefs(s: State, s': State, t: Option<Tid>, x: Option<Skb>, u: Option<Urb>)
    requires Moves(s, s', t, x, u) && UrbSettled(s', t, x, u)
    requires CoreRefs(s.refs, s.hostRx, s.hostTx)
    ensures CoreRefs(s'.refs, s'.hostRx, s'.hostTx)
  {
  }

  lemma LocalPinRefs(s: State, s': State, t: Option<Tid>, x: Option<Skb>, u: Option<Urb>)
    requires Moves(s, s', t, x, u) && Private(s, t, x, u) && Consistent(s, s', t, x, u) && ThreadSettled(s', t, x, u)
    requires PinRefs(s.refs, s.threads)
    ensures PinRefs(s'.refs, s'.threads)
  {
  }

  lemma LocalDoneStates(s: State, s': State, t: Option<Tid>, x: Option<Skb>, u: Option<Urb>)
    requires Moves(s, s', t, x, u) && BufferSettled(s', t, x, u)
    requires DoneStates(s.cb, s.owner)
    ensures DoneStates(s'.cb, s'.owner)
  {
  }

  lemma LocalLocalStates(s: State, s': State, t: Option<Tid>, x: Option<Skb>, u: Option<Urb>)
    requires Moves(s, s', t, x, u) && Private(s, t, x, u) && ThreadSettled(s', t, x, u)
    requires LocalStates(s.threads, s.cb)
    requires Hands(s.threads, s.owner) && RxDoers(s.threads, s.owner) && TxDoers(s.threads, s.owner)
    ensures LocalStates(s'.threads, s'.cb)
  {
    forall t' | t' in s'.threads && Some(t') != t
      ensures LocalState(s'.threads[t'], s'.cb)
    {
      var l := s.threads[t'];
      assert LocalState(l, s.cb);
      assert HandSkb(l) != x || x.None?;
      assert RxDoing(l) != x || x.None?;
    }
  }

  lemma LocalFreeing(s: State, s': State, t: Option<Tid>, x: Option<Skb>, u: Option<Urb>)
    requires Moves(s, s', t, x, u) && BufferSettled(s', t, x, u) && UrbSettled(s', t, x, u)
    requires Freeing(s.owner, s.holder, s.skbFrees, s.urbFrees)
    ensures Freeing(s'.owner, s'.holder, s'.skbFrees, s'.urbFrees)
  {
  }

  lemma LocalRxLock(s: State, s': State, t: Option<Tid>, x: Option<Skb>, u: Option<Urb>)
    requires Moves(s, s', t, x, u) && Consistent(s, s', t, x, u) && ThreadSettled(s', t, x, u)
    requires RxLock(s.rxLock, s.threads)
    ensures RxLock(s'.rxLock, s'.threads)
  {
  }

  lemma LocalAcceptedOnce(s: State, s': State, t: Option<Tid>, x: Option<Skb>, u: Option<Urb>)
    requires Moves(s, s', t, x, u) && Private(s, t, x, u) && ThreadSettled(s', t, x, u) && BufferSettled(s', t, x, u)
    requires AcceptedOnce(s.accepted, s.owner, s.threads)
    requires Hands(s.threads, s.owner)
    ensures AcceptedOnce(s'.accepted, s'.owner, s'.threads)
  {
  }

  lemma LocalPins(s: State, s': State, t: Option<Tid>, x: Option<Skb>, u: Option<Urb>)
    requires Moves(s, s', t, x, u) && Consistent(s, s', t, x, u) && ThreadSettled(s', t, x, u)
    requires Pins(s.threads, s.ctx, s.unlinkCalls)
    ensures Pins(s'.threads, s'.ctx, s'.unlinkCalls)
  {
  }

  lemma RetiredStays(s: State, s': State, t: Option<Tid>, x: Option<Skb>, u: Option<Urb>, y: Skb)
    requires Moves(s, s', t, x, u) && Private(s, t, x, u) && Consistent(s, s', t, x, u)
    requires Hands(s.threads, s.owner) && y in s.owner && Retired(s.owner[y], s.threads)
    ensures y in s'.owner && Retired(s'.owner[y], s'.threads)
  {
  }

  lemma LocalKeepers(s: State, s': State, t: Option<Tid>, x: Option<Skb>, u: Option<Urb>)
    requires Moves(s, s', t, x, u) && Private(s, t, x, u) && Consistent(s, s', t, x, u) && ThreadSettled(s', t, x, u)
    requires Keepers(s.threads, s.ctx, s.owner, s.unlinkCalls)
    requires UrbHands(s.threads, s.holder) && Hands(s.threads, s.owner) && RxDoers(s.threads, s.owner)
    ensures Keepers(s'.threads, s'.ctx, s'.owner, s'.unlinkCalls)
  {
    forall t' | t' in s'.threads && Some(t') != t
      ensures Keeps(s'.threads[t'], s'.ctx, s'.owner, s'.threads, s'.unlinkCalls)
    {
      var l := s.threads[t'];
      assert Keeps(l, s.ctx, s.owner, s.threads, s.unlinkCalls);
      if HandUrb(l).Some? && HandUrb(l).value in s.ctx && s.ctx[HandUrb(l).value] in s.owner
         && Retired(s.owner[s.ctx[HandUrb(l).value]], s.threads) {
        RetiredStays(s, s', t, x, u, s.ctx[HandUrb(l).value]);
      }
    }
  }

  lemma LocalSubmitted(s: State, s': State, t: Option<Tid>, x: Option<Skb>, u: Option<Urb>)
    requires Moves(s, s', t, x, u) && Private(s, t, x, u) && BufferSettled(s', t, x, u)
    requires Submitted(s.unlinkCalls, s.resumed, s.owner, s.threads)
    requires Hands(s.threads, s.owner)
    ensures Submitted(s'.unlinkCalls, s'.resumed, s'.owner, s'.threads)
  {
  }

  lemma LocalMarks(s: State, s': State, t: Option<Tid>, x: Option<Skb>, u: Option<Urb>)
    requires Moves(s, s', t, x, u) && BufferSettled(s', t, x, u)
    requires Marks(s.unlinkCalls, s.resumed, s.cb, s.owner)
    ensures Marks(s'.unlinkCalls, s'.resumed, s'.cb, s'.owner)
  {
  }

  lemma LocalSwept(s: State, s': State, t: Option<Tid>, x: Option<Skb>, u: Option<Urb>)
    requires Moves(s, s', t, x, u) && ThreadSettled(s', t, x, u) && BufferSettled(s', t, x, u)
    requires Swept(s.swept, s.asleep, s.cb, s.owner, s.threads)
    ensures Swept(s'.swept, s'.asleep, s'.cb, s'.owner, s'.threads)
  {
  }

  // ----- the locality principle ------------------------------------------------------------

  lemma LocalKeepsBuffers(s: State, s': State, t: Option<Tid>, x: Option<Skb>, u: Option<Urb>)
    requires Buffers(s) && Local3(s, s', t, x, u)
    ensures Buffers(s')
  {
    LocalQueues(s, s', t, x, u);
    LocalPauseQueues(s, s', t, x, u);
    LocalDomains(s, s', t, x, u);
    LocalHands(s, s', t, x, u);
    LocalRxDoers(s, s', t, x, u);
    LocalTxDoers(s, s', t, x, u);
    LocalDoneStates(s, s', t, x, u);
    LocalLocalStates(s, s', t, x, u);
    LocalFreeing(s, s', t, x, u);
  }

  lemma LocalKeepsHolders(s: State, s': State, t: Option<Tid>, x: Option<Skb>, u: Option<Urb>)
    requires Transfers(s) && Buffers(s) && Local3(s, s', t, x, u)
    ensures UrbHands(s'.threads, s'.holder) && Links(s'.threads, s'.cb, s'.ctx)
    ensures ViaEntries(s'.cb, s'.owner, s'.holder, s'.threads) && ViaContexts(s'.holder, s'.ctx)
    ensures AnchorList(s'.deferred, s'.holder) && AnchorLinks(s'.deferred, s'.cb, s'.owner, s'.ctx)
  {
    LocalDomains(s, s', t, x, u);
    LocalUrbHands(s, s', t, x, u);
    LocalLinks(s, s', t, x, u);
    LocalViaEntries(s, s', t, x, u);
    LocalViaContexts(s, s', t, x, u);
    LocalAnchorList(s, s', t, x, u);
    LocalAnchorLinks(s, s', t, x, u);
  }

  lemma LocalKeepsTransfers(s: State, s': State, t: Option<Tid>, x: Option<Skb>, u: Option<Urb>)
    requires Transfers(s) && Buffers(s) && Local3(s, s', t, x, u)
    ensures Transfers(s')
  {
    LocalKeepsHolders(s, s', t, x, u);
    LocalHostLinks(s, u);
    LocalHostRx(s, s', t, x, u);
    LocalHostTx(s, s', t, x, u);
    LocalBaseRefs(s, s', t, x, u);
    LocalCoreRefs(s, s', t, x, u);
    LocalPinRefs(s, s', t, x, u);
  }

  lemma LocalKeepsRecords(s: State, s': State, t: Option<Tid>, x: Option<Skb>, u: Option<Urb>)
    requires Records(s) && Buffers(s) && UrbHands(s.threads, s.holder) && Local3(s, s', t, x, u)
    requires Sleeping(s'.asleep, s'.draining, s'.suspendCount, s'.swept, s'.deferred)
    requires Power(s'.power, s'.hostTx, s'.deferred)
    requires Ordered(s'.accepted, s'.settled, s'.wire, s'.deferred, s'.ctx)
    ensures Records(s')
  {
    LocalRxLock(s, s', t, x, u);
    LocalAcceptedOnce(s, s', t, x, u);
    LocalPins(s, s', t, x, u);
    LocalKeepers(s, s', t, x, u);
    LocalSubmitted(s, s', t, x, u);
    LocalMarks(s, s', t, x, u);
    LocalSwept(s, s', t, x, u);
  }

  lemma LocalKeepsInv(s: State, s': State, t: Option<Tid>, x: Option<Skb>, u: Option<Urb>)
    requires Inv(s) && Local3(s, s', t, x, u)
    requires Sleeping(s'.asleep, s'.draining, s'.suspendCount, s'.swept, s'.deferred)
    requires Power(s'.power, s'.hostTx, s'.deferred)
    requires Ordered(s'.accepted, s'.settled, s'.wire, s'.deferred, s'.ctx)
    ensures Inv(s')
  {
    LocalKeepsBuffers(s, s', t, x, u);
    LocalKeepsTransfers(s, s', t, x, u);
    LocalKeepsRecords(s, s', t, x, u);
  }
}
