/**
 The driver's handlers, each running from its entry to its exit.

 `UsbNet` holds the queues, flags and counters of struct usbnet and updates them in place.
 Beside them it carries a state of the interleaving machine: every atomic section of a handler
 is one event of the machine, so whatever the handlers do is a run of that machine, and all that
 is proved about its reachable states holds of the driver.  `Rep` says where the handler is.
 */
module UsbNetDriver {
  import opened Basics
  import opened UsbNetModel
  import opened UsbNetTheorems
  import opened UsbNetTrace

  /** What rx_complete makes of a status: the entry's next state, its URB, and the URB it keeps. */
  function NextState(verdict: RxStatus): SkbState {
    if verdict.Good? then RxDone else RxCleanup
  }

  function Named(verdict: RxStatus, u: Urb): Option<Urb> {
    if verdict.Block? then Some(u) else None
  }

  function Kept(verdict: RxStatus, u: Urb): Option<Urb> {
    if verdict.Block? then None else Some(u)
  }

  /** pkt_cnt and pkt_err after one more read. */
  function CountOne(c: (nat, nat), good: bool): (nat, nat) {
    if c.0 + 1 > 30 then (0, 0) else (c.0 + 1, if good then c.1 else c.1 + 1)
  }

  /** The counters after some reads, of which each was good or not. */
  function Count(seen: seq<bool>): (nat, nat)
    decreases |seen|
  {
    if seen == [] then (0, 0) else CountOne(Count(seen[..|seen| - 1]), seen[|seen| - 1])
  }

  function Errors(seen: seq<bool>): nat
    decreases |seen|
  {
    if seen == [] then 0 else Errors(seen[..|seen| - 1]) + if seen[|seen| - 1] then 0 else 1
  }

  /**
   Reads are counted in windows of 31, of which the last starts the next window: reception is
   stopped exactly when more than 20 reads of the current window were in error.
   */
  lemma {:induction false} CountIsWindow(seen: seq<bool>)
    ensures Count(seen).0 == |seen| % 31
    ensures Count(seen).1 == Errors(Window(seen))
    decreases |seen|
  {
    if seen != [] {
      var n := |seen| - 1;
      CountIsWindow(seen[..n]);
      NextWindow(seen[..n], seen[n]);
      assert seen[..n] + [seen[n]] == seen;
    }
  }

  /** The reads of the current window. */
  function Window(seen: seq<bool>): seq<bool> {
    seen[|seen| - |seen| % 31..]
  }

  lemma NextWindow(seen: seq<bool>, good: bool)
    ensures var m := |seen| % 31;
      && |seen + [good]| % 31 == (if m == 30 then 0 else m + 1)
      && Errors(Window(seen + [good])) == if m == 30 then 0 else Errors(Window(seen)) + if good then 0 else 1
  {
    var m := |seen| % 31;
    if m != 30 {
      assert Window(seen + [good]) == Window(seen) + [good];
      assert (Window(seen) + [good])[..|Window(seen)|] == Window(seen);
    }
  }

  /** What usbnet_bh still has to do: a received buffer may come back once, to be freed. */
  function Work(cb: map<Skb, Entry>, done: seq<Skb>): nat {
    if done == [] then 0
    else (if done[0] in cb && cb[done[0]].state.RxDone? then 2 else 1) + Work(cb, done[1..])
  }

  lemma {:induction false} WorkAppend(cb: map<Skb, Entry>, done: seq<Skb>, x: Skb)
    ensures Work(cb, done + [x]) == Work(cb, done) + if x in cb && cb[x].state.RxDone? then 2 else 1
  {
    if done == [] {
      assert done + [x] == [x];
    } else {
      assert (done + [x])[1..] == done[1..] + [x];
      WorkAppend(cb, done[1..], x);
    }
  }

  lemma {:induction false} WorkElsewhere(cb: map<Skb, Entry>, cb': map<Skb, Entry>, done: seq<Skb>)
    requires forall x :: x in done && x in cb' ==> x in cb && cb[x] == cb'[x]
    requires forall x :: x in done && x in cb ==> x in cb'
    ensures Work(cb, done) == Work(cb', done)
  {
    if done != [] {
      var x := done[0];
      assert x in done;
      assert forall y :: y in done[1..] ==> y in done;
      WorkElsewhere(cb, cb', done[1..]);
    }
  }

  /** What was freed between two states, and that nothing was unlinked. */
  ghost predicate Frees(s: State, s': State, xs: seq<Skb>, us: seq<Urb>) {
    s'.skbFrees == s.skbFrees + xs && s'.urbFrees == s.urbFrees + us && s'.unlinkCalls == s.unlinkCalls
  }

  /** What one turn of rx_alloc_submit meets: the two allocations, and usb_submit_urb. */
  datatype Try = Try(urbOk: bool, allocOk: bool, status: SubmitStatus)

  predicate Succeeds(t: Try) {
    t.urbOk && t.allocOk && t.status.Accepted?
  }

  ghost predicate AllSucceed(tries: nat -> Try, n: nat) {
    forall i: nat :: i < n ==> Succeeds(tries(i))
  }

  /** rx_submit gets as far as usb_submit_urb. */
  predicate MaySubmit(c: Control, running: bool, allocOk: bool) {
    !c.kill && allocOk && running && !c.halt && !c.asleep
  }

  /** The flags after rx_submit. */
  function AfterSubmit(c: Control, running: bool, allocOk: bool, status: SubmitStatus): Control {
    var go := MaySubmit(c, running, allocOk);
    c.(halt := c.halt || (go && status.Stalled?),
       memory := c.memory || (!c.kill && !allocOk) || (go && status.NoMemory?))
  }

  /**
   rx_alloc_submit took rxq from one length to another: one read a turn until ten are added, rxq is
   full, or a turn fails, which may leave RX_HALT or RX_MEMORY set.
   */
  ghost predicate ToppedUp(c: Control, c': Control, before: nat, after: nat, limit: nat, running: bool,
                           tries: nat -> Try) {
    && before <= after <= before + 10 && (after > before ==> after <= limit && MaySubmit(c, running, true))
    && AllSucceed(tries, after - before)
    && var t := tries(after - before);
       if after - before == 10 || after >= limit then c' == c
       else
         && !(MaySubmit(c, running, true) && Succeeds(t))
         && c' == if t.urbOk then AfterSubmit(c, running, t.allocOk, t.status) else c
  }

  /** rxq was extended by new reads, and no other queue and no older entry was touched. */
  ghost predicate Extended(cb: map<Skb, Entry>, q: Queues, cb': map<Skb, Entry>, q': Queues) {
    && q.rxq <= q'.rxq && q' == q.(rxq := q'.rxq)
    && (forall z :: z in cb ==> z in cb' && cb'[z] == cb[z])
    && (forall z :: z in q'.rxq[|q.rxq|..] ==>
          z !in cb && z in cb' && cb'[z].state == RxStart && cb'[z].urb.Some?)
  }

  lemma ExtendedOn(cb: map<Skb, Entry>, q: Queues, cb1: map<Skb, Entry>, q1: Queues, cb2: map<Skb, Entry>, q2: Queues)
    requires Extended(cb, q, cb1, q1) && Extended(cb1, q1, cb2, q2)
    ensures Extended(cb, q, cb2, q2)
  {
    assert q2.rxq[|q.rxq|..] == q1.rxq[|q.rxq|..] + q2.rxq[|q1.rxq|..];
  }

  /** A power reference more. */
  function Powered(c: Control): Control
  {
    c.(power := c.power + 1)
  }

  lemma Twice(m: map<Skb, Entry>, x: Skb, a: Entry, b: Entry)
    ensures m[x := a][x := b] == m[x := b]
  {
  }

  /** The URB that a buffer's entry names, if any. */
  function UrbOf(cb: map<Skb, Entry>, x: Skb): seq<Urb> {
    if x in cb && cb[x].urb.Some? then [cb[x].urb.value] else []
  }

  ghost predicate Within(a: seq<Skb>, b: seq<Skb>) {
    forall y :: y in a ==> y in b
  }

  /** The entries of a queue that unlink_urbs has not marked. */
  function ToUnlink(cb: map<Skb, Entry>, q: seq<Skb>): set<Skb> {
    set x | x in q && (x !in cb || cb[x].state != UnlinkStart)
  }

  lemma FewerToUnlink(cb: map<Skb, Entry>, q: seq<Skb>, cb': map<Skb, Entry>, q': seq<Skb>)
    requires Within(q', q) && forall y :: y in cb && y in q' ==> y in cb' && cb'[y] == cb[y]
    ensures ToUnlink(cb', q') <= ToUnlink(cb, q)
  {
    forall y | y in ToUnlink(cb', q')
      ensures y in ToUnlink(cb, q)
    {
      assert y in q' && y in q;
    }
  }

  /** The second queue has only entries of the first, unchanged. */
  ghost predicate Intact(cb: map<Skb, Entry>, q: seq<Skb>, cb': map<Skb, Entry>, q': seq<Skb>) {
    forall y :: y in q' ==> y in q && y in cb && y in cb' && cb'[y] == cb[y]
  }

  /** The second queue has only entries of the first, unchanged or marked. */
  ghost predicate Marked(cb: map<Skb, Entry>, q: seq<Skb>, cb': map<Skb, Entry>, q': seq<Skb>) {
    forall y :: y in q' ==>
      y in q && y in cb && y in cb' && (cb'[y] == cb[y] || cb'[y] == cb[y].(state := UnlinkStart))
  }

  /** Each entry that was unmarked and is still queued was unlinked by these calls, and nothing else was. */
  ghost predicate Unlinked(cb: map<Skb, Entry>, q: seq<Skb>, q': seq<Skb>, calls: seq<Skb>) {
    && NoDup(calls)
    && (forall y :: y in calls ==> y in ToUnlink(cb, q))
    && (forall y :: y in q' && y in ToUnlink(cb, q) ==> y in calls)
  }

  function ListOf(q: Queues, rx: bool): seq<Skb> {
    if rx then q.rxq else q.txq
  }

  /**
   Entries of one list were marked or went; those of the other only went, if there were no new reads
   (quiet) or it is not the list of reads.
   */
  ghost predicate Pruned(rx: bool, quiet: bool, cb: map<Skb, Entry>, q: Queues, cb': map<Skb, Entry>, q': Queues) {
    && Marked(cb, ListOf(q, rx), cb', ListOf(q', rx))
    && (rx || quiet ==> Intact(cb, ListOf(q, !rx), cb', ListOf(q', !rx)))
  }

  /** Of the one list just x was marked. */
  ghost predicate OnePruned(rx: bool, quiet: bool, cb: map<Skb, Entry>, q: Queues, x: Skb,
                            cb': map<Skb, Entry>, q': Queues) {
    && x in ToUnlink(cb, ListOf(q, rx)) && x in cb
    && Intact(cb[x := cb[x].(state := UnlinkStart)], ListOf(q, rx), cb', ListOf(q', rx))
    && (rx || quiet ==> Intact(cb, ListOf(q, !rx), cb', ListOf(q', !rx)))
  }

  lemma PrunesOne(rx: bool, quiet: bool, cb: map<Skb, Entry>, q: Queues, x: Skb, cb': map<Skb, Entry>, q': Queues)
    requires x in ToUnlink(cb, ListOf(q, rx)) && x in cb && x !in ListOf(q, !rx)
    requires rx ==> quiet
    requires var cb1 := cb[x := cb[x].(state := UnlinkStart)];
      Intact(cb1, q.txq, cb', q'.txq) && (quiet ==> Intact(cb1, q.rxq, cb', q'.rxq))
    ensures OnePruned(rx, quiet, cb, q, x, cb', q')
  {
  }

  lemma PrunedOn(rx: bool, quiet: bool, cb0: map<Skb, Entry>, q0: Queues, cb: map<Skb, Entry>, q: Queues,
                 picked: seq<Skb>, x: Skb, cb': map<Skb, Entry>, q': Queues)
    requires Pruned(rx, quiet, cb0, q0, cb, q) && Picks(cb0, ListOf(q0, rx), cb, ListOf(q, rx), picked)
    requires OnePruned(rx, quiet, cb, q, x, cb', q')
    ensures Pruned(rx, quiet, cb0, q0, cb', q')
    ensures Picks(cb0, ListOf(q0, rx), cb', ListOf(q', rx), picked + [x])
    ensures |ToUnlink(cb', ListOf(q', rx))| < |ToUnlink(cb, ListOf(q, rx))|
  {
    PicksOn(cb0, ListOf(q0, rx), cb, ListOf(q, rx), picked, x, cb', ListOf(q', rx));
  }

  /** Completions change no other flags, and never clear RX_HALT. */
  predicate Steady(c: Control, c': Control) {
    && c'.rxLock == c.rxLock && c'.draining == c.draining && c'.asleep == c.asleep
    && c'.suspendCount == c.suspendCount && c'.swept == c.swept && (c.halt ==> c'.halt)
  }

  lemma {:induction false} FirstIsUnmarked(cb: map<Skb, Entry>, q: seq<Skb>)
    ensures FirstToUnlink(cb, q).Some? ==> FirstToUnlink(cb, q).value in ToUnlink(cb, q)
    decreases |q|
  {
    if q != [] {
      FirstIsUnmarked(cb, q[1..]);
    }
  }

  lemma InOneList(s: State, rx: bool, x: Skb)
    requires Live(s) && (forall t :: t in s.threads ==> s.threads[t].Unlinking?) && x in ListOf(s.queues, rx)
    ensures x !in ListOf(s.queues, !rx)
  {
    Queued(s);
  }

  lemma PrunedNothing(s: State, rx: bool, quiet: bool)
    requires Live(s) && (forall t :: t in s.threads ==> s.threads[t].Unlinking?)
    ensures Pruned(rx, quiet, s.cb, s.queues, s.cb, s.queues)
    ensures Picks(s.cb, ListOf(s.queues, rx), s.cb, ListOf(s.queues, rx), [])
  {
    Queued(s);
  }

  lemma SmallerSet<T>(a: set<T>, b: set<T>)
    requires a <= b
    ensures |a| <= |b| && (a != b ==> |a| < |b|)
  {
    assert b == a + (b - a);
  }

  /** The buffers that deferred URBs carry. */
  function Carried(context: map<Urb, Skb>, us: seq<Urb>): (r: seq<Skb>)
    ensures |r| == |us|
  {
    seq(|us|, i requires 0 <= i < |us| => if us[i] in context then context[us[i]] else 0)
  }

  lemma CarriedGrows(before: seq<Skb>, context: map<Urb, Skb>, us: seq<Urb>, i: nat, p: Urb -> bool)
    requires i < |us| && us[i] in context
    ensures before + Carried(context, Filter(us[..i + 1], p))
         == before + Carried(context, Filter(us[..i], p)) + if p(us[i]) then [context[us[i]]] else []
  {
    FilterNext(us, i, p);
    var some := Filter(us[..i], p);
    assert Carried(context, some + [us[i]]) == Carried(context, some) + [context[us[i]]];
  }

  // ----- what the tasklet makes of the done queue --------------------------------------------

  /** Buffers given to the stack, put by while paused, and freed; and URBs freed. */
  datatype Outcome = Outcome(stack: seq<Skb>, paused: seq<Skb>, freed: seq<Skb>, urbs: seq<Urb>)

  /** A received buffer that is sent there. */
  function Going(cb: map<Skb, Entry>, dest: Skb -> Delivery, to: Delivery): Skb -> bool {
    x => x in cb && cb[x].state.RxDone? && dest(x) == to
  }

  /** A buffer that is only to be freed. */
  function Finishing(cb: map<Skb, Entry>): Skb -> bool {
    x => !(x in cb && cb[x].state.RxDone?)
  }

  function UrbsOf(cb: map<Skb, Entry>, xs: seq<Skb>): seq<Urb> {
    if xs == [] then [] else UrbsOf(cb, xs[..|xs| - 1]) + UrbOf(cb, xs[|xs| - 1])
  }

  /** One turn of the loop of usbnet_bh. */
  ghost predicate One(cb: map<Skb, Entry>, done: seq<Skb>, dest: Skb -> Delivery, o: Outcome,
                      cb': map<Skb, Entry>, done': seq<Skb>, o': Outcome) {
    && done != []
    && var x := done[0];
       && x in cb
       && if cb[x].state.RxDone? then
            && cb[x].urb.None? && cb' == cb[x := Entry(RxCleanup, None)]
            && done' == done[1..] + (if dest(x) == ToDone then [x] else [])
            && o' == o.(stack := o.stack + (if dest(x) == ToStack then [x] else []),
                        paused := o.paused + (if dest(x) == ToPause then [x] else []))
          else
            && cb' == cb && done' == done[1..]
            && o' == o.(freed := o.freed + [x], urbs := o.urbs + UrbOf(cb, x))
  }

  /** The outcome when the first i buffers were taken from the done queue, and j of those that came back. */
  function Reached(cb: map<Skb, Entry>, done: seq<Skb>, dest: Skb -> Delivery, o: Outcome, i: nat, j: nat): Outcome
    requires i <= |done| && j <= |Filter(done[..i], Going(cb, dest, ToDone))|
  {
    var past := done[..i];
    Outcome(o.stack + Filter(past, Going(cb, dest, ToStack)), o.paused + Filter(past, Going(cb, dest, ToPause)),
            o.freed + Filter(past, Finishing(cb)) + Filter(past, Going(cb, dest, ToDone))[..j],
            o.urbs + UrbsOf(cb, Filter(past, Finishing(cb))))
  }

  ghost predicate Doing(cb0: map<Skb, Entry>, done0: seq<Skb>, dest: Skb -> Delivery, o0: Outcome, i: nat, j: nat,
                        cb: map<Skb, Entry>, done: seq<Skb>, o: Outcome) {
    && i <= |done0| && NoDup(done0)
    && var back := Filter(done0[..i], Going(cb0, dest, ToDone));
       && j <= |back| && (j > 0 ==> i == |done0|) && done == done0[i..] + back[j..]
       && o == Reached(cb0, done0, dest, o0, i, j)
       && (forall x :: x in done0[i..] ==> x in cb && x in cb0 && cb[x] == cb0[x])
       && (forall x :: x in back ==> x in cb && cb[x] == Entry(RxCleanup, None))
  }

  lemma DoingStart(cb: map<Skb, Entry>, done: seq<Skb>, dest: Skb -> Delivery, o: Outcome)
    requires NoDup(done) && forall x :: x in done ==> x in cb
    ensures Doing(cb, done, dest, o, 0, 0, cb, done, o)
  {
    assert done[..0] == [];
    assert done[0..] + [] == done;
  }

  /** A buffer's first turn. */
  lemma DoingFirst(cb0: map<Skb, Entry>, done0: seq<Skb>, dest: Skb -> Delivery, o0: Outcome, i: nat,
                   cb: map<Skb, Entry>, done: seq<Skb>, o: Outcome,
                   cb': map<Skb, Entry>, done': seq<Skb>, o': Outcome)
    requires i < |done0| && Doing(cb0, done0, dest, o0, i, 0, cb, done, o) && One(cb, done, dest, o, cb', done', o')
    ensures Doing(cb0, done0, dest, o0, i + 1, 0, cb', done', o')
  {
    var x := done0[i];
    assert done[0] == x && x in done0[i..] && cb[x] == cb0[x];
    NextOutcome(cb0, done0, dest, o0, i, o, o');
    NextQueue(cb0, done0, dest, i, done, done');
    NextBack(cb0, done0, dest, i, cb, cb');
  }

  lemma NextQueue(cb: map<Skb, Entry>, done0: seq<Skb>, dest: Skb -> Delivery, i: nat, done: seq<Skb>, done': seq<Skb>)
    requires i < |done0| && done == done0[i..] + Filter(done0[..i], Going(cb, dest, ToDone))
    requires done' == done[1..] + if Going(cb, dest, ToDone)(done0[i]) then [done0[i]] else []
    ensures done' == done0[i + 1..] + Filter(done0[..i + 1], Going(cb, dest, ToDone))
  {
    assert done[1..] == done0[i + 1..] + Filter(done0[..i], Going(cb, dest, ToDone));
    FilterGrows(done0[i + 1..], done0, i, Going(cb, dest, ToDone));
  }

  lemma NextOutcome(cb: map<Skb, Entry>, done: seq<Skb>, dest: Skb -> Delivery, o0: Outcome, i: nat,
                    o: Outcome, o': Outcome)
    requires i < |done| && done[i] in cb && o == Reached(cb, done, dest, o0, i, 0)
    requires var x := done[i];
      o' == if cb[x].state.RxDone? then
              o.(stack := o.stack + (if dest(x) == ToStack then [x] else []),
                 paused := o.paused + (if dest(x) == ToPause then [x] else []))
            else o.(freed := o.freed + [x], urbs := o.urbs + UrbOf(cb, x))
    ensures o' == Reached(cb, done, dest, o0, i + 1, 0)
  {
    NextReached(cb, done, dest, o0, i);
  }

  /** Each field grows by the buffer, or by its URB, if it is one of those kept there. */
  lemma NextReached(cb: map<Skb, Entry>, done: seq<Skb>, dest: Skb -> Delivery, o: Outcome, i: nat)
    requires i < |done| && done[i] in cb
    ensures var x := done[i];
      var r, r' := Reached(cb, done, dest, o, i, 0), Reached(cb, done, dest, o, i + 1, 0);
      && r'.stack == r.stack + (if Going(cb, dest, ToStack)(x) then [x] else [])
      && r'.paused == r.paused + (if Going(cb, dest, ToPause)(x) then [x] else [])
      && r'.freed == r.freed + (if Finishing(cb)(x) then [x] else [])
      && r'.urbs == r.urbs + (if Finishing(cb)(x) then UrbOf(cb, x) else [])
  {
    FilterGrows(o.stack, done, i, Going(cb, dest, ToStack));
    FilterGrows(o.paused, done, i, Going(cb, dest, ToPause));
    FilterGrows(o.freed, done, i, Finishing(cb));
    UrbsGrow(cb, o.urbs, done, i);
  }

  lemma UrbsGrow(cb: map<Skb, Entry>, us: seq<Urb>, done: seq<Skb>, i: nat)
    requires i < |done|
    ensures us + UrbsOf(cb, Filter(done[..i + 1], Finishing(cb)))
         == us + UrbsOf(cb, Filter(done[..i], Finishing(cb)))
            + if Finishing(cb)(done[i]) then UrbOf(cb, done[i]) else []
  {
    FilterNext(done, i, Finishing(cb));
    var ended := Filter(done[..i], Finishing(cb));
    if Finishing(cb)(done[i]) {
      assert (ended + [done[i]])[..|ended|] == ended;
      assert UrbsOf(cb, ended + [done[i]]) == UrbsOf(cb, ended) + UrbOf(cb, done[i]);
    } else {
      assert Filter(done[..i + 1], Finishing(cb)) == ended;
    }
  }

  lemma NextBack(cb0: map<Skb, Entry>, done0: seq<Skb>, dest: Skb -> Delivery, i: nat,
                 cb: map<Skb, Entry>, cb': map<Skb, Entry>)
    requires i < |done0| && NoDup(done0) && done0[i] in cb
    requires cb' == if cb[done0[i]].state.RxDone? then cb[done0[i] := Entry(RxCleanup, None)] else cb
    requires forall x :: x in done0[i..] ==> x in cb && x in cb0 && cb[x] == cb0[x]
    requires forall x :: x in Filter(done0[..i], Going(cb0, dest, ToDone)) ==>
               x in cb && cb[x] == Entry(RxCleanup, None)
    ensures forall x :: x in done0[i + 1..] ==> x in cb' && x in cb0 && cb'[x] == cb0[x]
    ensures forall x :: x in Filter(done0[..i + 1], Going(cb0, dest, ToDone)) ==>
              x in cb' && cb'[x] == Entry(RxCleanup, None)
  {
    assert done0[i] in done0[i..];
    FilterNext(done0, i, Going(cb0, dest, ToDone));
    FilterHas(done0[..i], Going(cb0, dest, ToDone));
    assert forall x :: x in done0[i + 1..] ==> x in done0[i..] && x != done0[i];
  }

  /** The turn of one that came back. */
  lemma DoingAgain(cb0: map<Skb, Entry>, done0: seq<Skb>, dest: Skb -> Delivery, o0: Outcome, j: nat,
                   cb: map<Skb, Entry>, done: seq<Skb>, o: Outcome,
                   cb': map<Skb, Entry>, done': seq<Skb>, o': Outcome)
    requires Doing(cb0, done0, dest, o0, |done0|, j, cb, done, o) && One(cb, done, dest, o, cb', done', o')
    ensures Doing(cb0, done0, dest, o0, |done0|, j + 1, cb', done', o')
  {
    var back := Filter(done0[..|done0|], Going(cb0, dest, ToDone));
    assert done == back[j..] && done[0] == back[j];
    assert done[0] in back;
    assert back[..j + 1] == back[..j] + [back[j]];
  }

  lemma DoingEnd(cb0: map<Skb, Entry>, done0: seq<Skb>, dest: Skb -> Delivery, o0: Outcome, i: nat, j: nat,
                 cb: map<Skb, Entry>, o: Outcome)
    requires Doing(cb0, done0, dest, o0, i, j, cb, [], o)
    ensures o.stack == o0.stack + Filter(done0, Going(cb0, dest, ToStack))
    ensures o.paused == o0.paused + Filter(done0, Going(cb0, dest, ToPause))
    ensures o.freed == o0.freed + Filter(done0, Finishing(cb0)) + Filter(done0, Going(cb0, dest, ToDone))
    ensures o.urbs == o0.urbs + UrbsOf(cb0, Filter(done0, Finishing(cb0)))
  {
    var back := Filter(done0[..i], Going(cb0, dest, ToDone));
    assert done0[i..] + back[j..] == [];
    assert |done0[i..]| == 0 && |back[j..]| == 0;
    assert done0[..i] == done0 && back[..j] == back;
  }

  // ----- sections whose effect on the machine takes a case analysis --------------------------

  lemma Classified(s: State, t: Tid, verdict: RxStatus) returns (s': State)
    requires Live(s) && t in s.threads && s.threads[t].RxTop?
    ensures Live(s') && Ran(s, s') && s'.refs.Keys == s.refs.Keys
    ensures var RxTop(u, x) := s.threads[t];
      && x in s.cb && s'.cb == s.cb[x := s.cb[x].(urb := Named(verdict, u))]
      && s'.threads == s.threads[t := RxMid(x, NextState(verdict), Kept(verdict, u))]
    ensures s'.ctx == s.ctx && s'.queues == s.queues && s'.ctl == s.ctl.(halt := s.halt || verdict == Block(true))
    ensures s'.hist == s.hist
  {
    TopEntry(s, t, s.threads[t].x);
    Fires(s, RxClassify(t, verdict));
    s' := DoRxClassify(s, t, verdict);
  }

  lemma LockTested(s: State, t: Tid, running: bool) returns (s': State)
    requires Live(s) && t in s.threads && s.threads[t].Ready? && s.rxLock.None?
    ensures Live(s') && Ran(s, s') && s'.refs.Keys == s.refs.Keys && s'.ctx == s.ctx && s'.cb == s.cb
    ensures s'.queues == s.queues
    ensures s'.hist == s.hist
    ensures var Ready(u, x) := s.threads[t];
      && s'.ctl == s.ctl.(rxLock := Some(t))
      && s'.threads == s.threads[t := Locked(u, x, running && !s.halt && !s.asleep)]
  {
    Fires(s, RxLockTest(t, running));
    s' := DoRxLockTest(s, t, running);
  }

  /** What a failed usb_submit_urb asks of the work item. */
  function Told(c: Control, go: bool, status: SubmitStatus): Control {
    if go && status.Stalled? then c.(halt := true)
    else if go && status.NoMemory? then c.(memory := true)
    else c
  }

  lemma SubmittedLocked(s: State, t: Tid, status: SubmitStatus) returns (s': State)
    requires Live(s) && t in s.threads && s.threads[t].Locked? && s.threads[t].x in s.cb
    ensures Live(s') && Ran(s, s') && s'.refs.Keys == s.refs.Keys && s'.ctx == s.ctx
    ensures s'.hist == s.hist
    ensures var Locked(u, x, go) := s.threads[t]; var ok := go && status.Accepted?;
      && s'.queues == (if ok then s.queues.(rxq := s.rxq + [x]) else s.queues)
      && s'.cb == (if ok then s.cb[x := s.cb[x].(state := RxStart)] else s.cb)
      && s'.ctl == Told(s.ctl.(rxLock := None), go, status)
      && s'.threads == (if ok then s.threads - {t} else s.threads[t := Failed(u, x)])
  {
    Fires(s, RxSubmitLocked(t, status));
    s' := DoRxSubmitLocked(s, t, status);
  }

  lemma TestedAndSubmitted(s: State, t: Tid, running: bool, status: SubmitStatus) returns (s': State)
    requires Live(s) && t in s.threads && s.threads[t].Ready? && s.rxLock.None? && s.threads[t].x in s.cb
    ensures Live(s') && Ran(s, s') && s'.refs.Keys == s.refs.Keys && s'.ctx == s.ctx
    ensures s'.hist == s.hist
    ensures var Ready(u, x) := s.threads[t];
      var go := running && !s.halt && !s.asleep;
      var ok := go && status.Accepted?;
      && s'.queues == (if ok then s.queues.(rxq := s.rxq + [x]) else s.queues)
      && s'.cb == (if ok then s.cb[x := s.cb[x].(state := RxStart)] else s.cb)
      && s'.ctl == Told(s.ctl, go, status)
      && s'.threads == (if ok then s.threads - {t} else s.threads[t := Failed(u, x)])
  {
    s' := LockTested(s, t, running);
    s' := SubmittedLocked(s', t, status);
  }

  lemma XmitAccepted(s: State, t: Tid) returns (s': State)
    requires Live(s) && t in s.threads && s.threads[t].Xmit? && !s.draining && !s.asleep && s.threads[t].x in s.cb
    ensures Live(s') && Ran(s, s') && s'.refs.Keys == s.refs.Keys && s'.ctx == s.ctx
    ensures var x := s.threads[t].x;
      && s'.queues == s.queues.(txq := s.txq + [x]) && s'.cb == s.cb[x := s.cb[x].(state := TxStart)]
      && s'.ctl == s.ctl.(power := s.power + 1) && s'.threads == s.threads - {t} && Frees(s, s', [], [])
  {
    Fires(s, XmitLocked(t, true, Accepted));
    s' := DoXmitLocked(s, t, true, Accepted);
  }

  lemma Picked(s: State, t: Tid, rx: bool) returns (s': State)
    requires Live(s) && t !in s.threads && s.rxLock.None? && !s.draining
    requires FirstToUnlink(s.cb, if rx then s.rxq else s.txq).Some?
    requires var x := FirstToUnlink(s.cb, if rx then s.rxq else s.txq).value; x in s.cb && s.cb[x].urb.Some?
    ensures Live(s') && Ran(s, s') && s'.refs.Keys == s.refs.Keys && s'.ctx == s.ctx
    ensures var x := FirstToUnlink(s.cb, if rx then s.rxq else s.txq).value;
      && s'.cb == s.cb[x := s.cb[x].(state := UnlinkStart)] && s'.threads == s.threads[t := Unlinking(s.cb[x].urb, x)]
      && s'.hist == s.hist.(unlinkCalls := s.unlinkCalls + [x])
    ensures s'.queues == s.queues && s'.ctl == s.ctl
  {
    Fires(s, UnlinkPick(t, rx));
    s' := DoUnlinkPick(s, t, rx);
  }

  lemma PutBack(s: State, t: Tid) returns (s': State)
    requires Live(s) && t in s.threads && s.threads[t].Unlinking?
    ensures Live(s') && Ran(s, s') && s'.refs.Keys == s.refs.Keys && s'.ctx == s.ctx
    ensures s'.cb == s.cb && s'.threads == s.threads - {t} && s'.hist == s.hist
    ensures s'.queues == s.queues && s'.ctl == s.ctl
  {
    Fires(s, UnlinkPut(t));
    s' := DoUnlinkPut(s, t);
  }

  lemma Dozed(s: State, auto: bool) returns (s': State)
    requires Live(s) && !s.draining
    ensures Live(s') && Ran(s, s') && s'.refs.Keys == s.refs.Keys && s'.ctx == s.ctx
    ensures s'.cb == s.cb && s'.threads == s.threads && s'.queues == s.queues && s'.hist == s.hist
    ensures s'.ctl == if s.suspendCount > 0 then s.ctl.(suspendCount := s.suspendCount + 1)
                      else if s.txq != [] && auto then s.ctl
                      else s.ctl.(suspendCount := 1, asleep := true)
  {
    Fires(s, Suspend(auto));
    s' := DoSuspend(s, auto);
  }

  lemma Drained(s: State, ok: bool) returns (s': State)
    requires Live(s) && s.draining && s.deferred != []
    ensures s.deferred[0] in s.ctx
    ensures Live(s') && Ran(s, s') && s'.refs.Keys == s.refs.Keys && s'.ctx == s.ctx
    ensures s'.cb == s.cb && s'.threads == s.threads
    ensures s'.queues == s.queues.(deferred := s.deferred[1..],
                                   txq := if ok then s.txq + [s.ctx[s.deferred[0]]] else s.txq)
    ensures s'.ctl == (if ok then s.ctl else s.ctl.(power := s.power - 1))
    ensures var u := s.deferred[0]; Frees(s, s', if ok then [] else [s.ctx[u]], if ok then [] else [u])
  {
    AnchorHead(s);
    Fires(s, ResumeOne(ok));
    s' := DoResumeOne(s, ok);
  }

  class UsbNet {
    const rxQlen: nat
    var q: Queues
    var ctl: Control
    var cb: map<Skb, Entry>
    var context: map<Urb, Skb>
    var urbs: set<Urb>          // those allocated so far
    var pktCnt: nat
    var pktErr: nat
    var delivered: seq<Skb>     // what the network stack was given, in order
    ghost var me: Tid           // the running handler
    ghost var others: map<Tid, Local>
    ghost var model: State

    /** The fields are the machine's, the handler is at l, and only unlinkers wait beside it. */
    ghost predicate Rep(l: Option<Local>)
      reads this
    {
      && Live(model)
      && model.cb == cb && model.ctx == context && model.refs.Keys == urbs
      && model.queues == q && model.ctl == ctl && ctl.rxLock == None
      && me !in others && (forall t :: t in others ==> others[t].Unlinking?)
      && model.threads == (if l.None? then others else others[me := l.value])
    }

    /** The reads queued, and the one that RX_MEMORY promises to submit. */
    function Reads(): nat
      reads this
    {
      |q.rxq| + if ctl.memory then 1 else 0
    }

    /** rx_complete resubmits nothing. */
    predicate NoReads()
      reads this
    {
      ctl.asleep || ctl.halt
    }

    function List(rx: bool): seq<Skb>
      reads this
    {
      ListOf(q, rx)
    }

    ghost predicate Valid()
      reads this
    {
      Rep(None) && !ctl.draining && Reads() <= rxQlen + 1
    }

    constructor (rxQlen: nat)
      ensures Valid() && this.rxQlen == rxQlen && model == Start
    {
      LiveStart();
      this.rxQlen := rxQlen;
      q, ctl := Start.queues, Start.ctl;
      cb, context, urbs := map[], map[], {};
      pktCnt, pktErr, delivered := 0, 0, [];
      me, others, model := 0, map[], Start;
    }

    // ----- atomic sections of the receive path ---------------------------------------------

    method ReadGivenBack(x: Skb, u: Urb)
      requires Rep(None) && x in q.rxq && x in cb && cb[x].urb == Some(u)
      modifies this`model
      ensures Rep(Some(RxTop(u, x))) && Ran(old(model), model) && model.hist == old(model).hist
    {
      Pending(model, x, u);
      Fires(model, RxGiveback(me, u));
      model := NextCompletion(model, RxGiveback(me, u));
    }

    method Classify(x: Skb, u: Urb, verdict: RxStatus)
      requires Rep(Some(RxTop(u, x)))
      modifies this`cb, this`ctl, this`model
      ensures x in old(cb) && cb == old(cb)[x := old(cb)[x].(urb := Named(verdict, u))]
      ensures ctl == old(ctl).(halt := old(ctl).halt || verdict == Block(true))
      ensures Rep(Some(RxMid(x, NextState(verdict), Kept(verdict, u))))
      ensures Ran(old(model), model) && model.hist == old(model).hist
    {
      ghost var s := Classified(model, me, verdict);
      cb := cb[x := cb[x].(urb := Named(verdict, u))];
      ctl := ctl.(halt := ctl.halt || verdict == Block(true));
      model := s;
    }

    method LeaveRxq(x: Skb, next: SkbState, ghost keep: Option<Urb>) returns (was: SkbState)
      requires Rep(Some(RxMid(x, next, keep)))
      modifies this`q, this`cb, this`model
      ensures x in old(cb) && was == old(cb)[x].state && cb == old(cb)[x := old(cb)[x].(state := next)]
      ensures q == old(q).(rxq := Without(old(q).rxq, x))
      ensures Rep(Some(RxMoving(x, was, keep))) && Ran(old(model), model) && model.hist == old(model).hist
    {
      RxEntry(model, me, x);
      was := cb[x].state;
      cb := cb[x := cb[x].(state := next)];
      q := q.(rxq := Without(q.rxq, x));
      Fires(model, RxUnlink(me));
      model := NextCompletion(model, RxUnlink(me));
    }

    method ReadDone(x: Skb, ghost was: SkbState, ghost keep: Option<Urb>)
      requires Rep(Some(RxMoving(x, was, keep)))
      modifies this`q, this`model
      ensures q == old(q).(done := old(q).done + [x])
      ensures Rep(Some(RxAfter(was, keep))) && Ran(old(model), model) && model.hist == old(model).hist
    {
      q := q.(done := q.done + [x]);
      Fires(model, RxQueueDone(me));
      model := NextCompletion(model, RxQueueDone(me));
    }

    /** Whether rx_complete goes on to resubmit its URB. */
    method Decide(was: SkbState, keep: Option<Urb>, running: bool) returns (again: bool)
      requires Rep(Some(RxAfter(was, keep)))
      modifies this`model
      ensures again == (keep.Some? && running && !ctl.halt && was != UnlinkStart)
      ensures Rep(if again then Some(Submit(keep.value)) else None) && Ran(old(model), model)
      ensures Frees(old(model), model, [], if keep.Some? && !again then [keep.value] else [])
    {
      again := keep.Some? && running && !ctl.halt && was != UnlinkStart;
      Fires(model, RxDecide(me, running));
      model := NextCompletion(model, RxDecide(me, running));
    }

    method AllocUrb(u: Urb)
      requires Rep(None) && u !in urbs
      modifies this`urbs, this`model
      ensures urbs == old(urbs) + {u}
      ensures Rep(Some(Submit(u))) && Ran(old(model), model) && model.hist == old(model).hist
    {
      urbs := urbs + {u};
      Fires(model, AllocRxUrb(me, u));
      model := NextSubmission(model, AllocRxUrb(me, u));
    }

    method AllocBuffer(u: Urb, x: Skb, allocOk: bool) returns (ready: bool)
      requires Rep(Some(Submit(u))) && x !in cb
      modifies this`cb, this`context, this`ctl, this`model
      ensures ready == (!ctl.kill && allocOk)
      ensures ctl == if !old(ctl).kill && !allocOk then old(ctl).(memory := true) else old(ctl)
      ensures cb == if ready then old(cb)[x := Entry(Illegal, Some(u))] else old(cb)
      ensures context == if ready then old(context)[u := x] else old(context)
      ensures model.hist == if ready then old(model).hist else old(model).hist.(urbFrees := old(model).urbFrees + [u])
      ensures Rep(if ready then Some(Ready(u, x)) else None) && Ran(old(model), model)
    {
      ready := !ctl.kill && allocOk;
      if ready {
        cb := cb[x := Entry(Illegal, Some(u))];
        context := context[u := x];
      } else if !ctl.kill {
        ctl := ctl.(memory := true);
      }
      Fires(model, RxAlloc(me, x, allocOk));
      model := NextSubmission(model, RxAlloc(me, x, allocOk));
    }

    /** The rxq.lock section of rx_submit. */
    method SubmitLocked(u: Urb, x: Skb, running: bool, status: SubmitStatus) returns (ok: bool)
      requires Rep(Some(Ready(u, x))) && x in cb
      modifies this`q, this`cb, this`ctl, this`model
      ensures var go := running && !old(ctl).halt && !ctl.asleep;
        && ok == (go && status.Accepted?)
        && ctl == Told(old(ctl), go, status)
      ensures q == if ok then old(q).(rxq := old(q).rxq + [x]) else old(q)
      ensures cb == if ok then old(cb)[x := old(cb)[x].(state := RxStart)] else old(cb)
      ensures Rep(if ok then None else Some(Failed(u, x))) && Ran(old(model), model) && model.hist == old(model).hist
    {
      ghost var s := TestedAndSubmitted(model, me, running, status);
      var go := running && !ctl.halt && !ctl.asleep;
      ok := go && status.Accepted?;
      if ok {
        q := q.(rxq := q.rxq + [x]);
        cb := cb[x := cb[x].(state := RxStart)];
      } else if go && status.Stalled? {
        ctl := ctl.(halt := true);
      } else if go && status.NoMemory? {
        ctl := ctl.(memory := true);
      }
      model := s;
    }

    method DropFailed(u: Urb, x: Skb)
      requires Rep(Some(Failed(u, x)))
      modifies this`model
      ensures Rep(None) && Ran(old(model), model)
      ensures model.hist == old(model).hist.(skbFrees := old(model).skbFrees + [x],
                                             urbFrees := old(model).urbFrees + [u])
    {
      Fires(model, RxDropFailed(me));
      model := NextSubmission(model, RxDropFailed(me));
    }

    // ----- atomic sections of the tasklet --------------------------------------------------

    method Dequeue() returns (x: Skb)
      requires Rep(None) && q.done != []
      modifies this`q, this`model
      ensures x == old(q).done[0] && q == old(q).(done := old(q).done[1..])
      ensures Rep(Some(BhHas(x))) && Ran(old(model), model) && model.hist == old(model).hist
    {
      x := q.done[0];
      q := q.(done := q.done[1..]);
      Fires(model, BhDequeue(me));
      model := NextTasklet(model, BhDequeue(me));
    }

    /** The switch of usbnet_bh; true when the buffer goes through rx_process. */
    method Dispatch(x: Skb) returns (received: bool)
      requires Rep(Some(BhHas(x)))
      modifies this`cb, this`model
      ensures x in old(cb) && received == old(cb)[x].state.RxDone?
      ensures !received ==> old(cb)[x].state.TxDone? || old(cb)[x].state.RxCleanup?
      ensures cb == if received then old(cb)[x := old(cb)[x].(state := RxCleanup)] else old(cb)
      ensures Rep(if received then Some(BhRx(x)) else None) && Ran(old(model), model)
      ensures Frees(old(model), model, if received then [] else [x], if received then [] else UrbOf(old(cb), x))
    {
      BhEntry(model, me, x);
      received := cb[x].state.RxDone?;
      if received {
        cb := cb[x := cb[x].(state := RxCleanup)];
      }
      Fires(model, BhDispatch(me));
      model := NextTasklet(model, BhDispatch(me));
    }

    /** rx_process, by where it sends the buffer. */
    method Deliver(x: Skb, dest: Delivery)
      requires Rep(Some(BhRx(x)))
      modifies this`q, this`delivered, this`model
      ensures match dest
        case ToStack => q == old(q)
        case ToPause => q == old(q).(pause := old(q).pause + [x])
        case ToDone => q == old(q).(done := old(q).done + [x])
      ensures delivered == old(delivered) + if dest.ToStack? then [x] else []
      ensures Rep(None) && Ran(old(model), model) && model.hist == old(model).hist
    {
      match dest {
        case ToStack => delivered := delivered + [x];
        case ToPause => q := q.(pause := q.pause + [x]);
        case ToDone => q := q.(done := q.done + [x]);
      }
      Fires(model, BhDeliver(me, dest));
      model := NextTasklet(model, BhDeliver(me, dest));
    }

    method Unpause(purge: bool)
      requires Rep(None) && q.pause != []
      modifies this`q, this`delivered, this`model
      ensures q == old(q).(pause := old(q).pause[1..])
      ensures delivered == old(delivered) + if purge then [] else [old(q).pause[0]]
      ensures Rep(None) && Ran(old(model), model)
      ensures Frees(old(model), model, if purge then [old(q).pause[0]] else [], [])
    {
      if !purge {
        delivered := delivered + [q.pause[0]];
      }
      q := q.(pause := q.pause[1..]);
      Fires(model, PauseReturn(purge));
      model := NextTasklet(model, PauseReturn(purge));
    }

    method SetKill(kill: bool, ghost l: Option<Local>)
      requires Rep(l)
      modifies this`ctl, this`model
      ensures ctl == old(ctl).(kill := kill)
      ensures Rep(l) && Ran(old(model), model) && model.hist == old(model).hist
    {
      ctl := ctl.(kill := kill);
      Fires(model, Flags(ctl.halt, kill, ctl.memory));
      model := NextSuspending(model, Flags(ctl.halt, kill, ctl.memory));
    }

    method ClearMemory()
      requires Rep(None)
      modifies this`ctl, this`model
      ensures ctl == old(ctl).(memory := false)
      ensures Rep(None) && Ran(old(model), model)
    {
      ctl := ctl.(memory := false);
      Fires(model, Flags(ctl.halt, ctl.kill, false));
      model := NextSuspending(model, Flags(ctl.halt, ctl.kill, false));
    }

    // ----- atomic sections of the transmit path --------------------------------------------

    method XmitStart(x: Skb, left: SkbState, u: Urb)
      requires Rep(None) && x !in cb && u !in urbs
      modifies this`cb, this`context, this`urbs, this`model
      ensures cb == old(cb)[x := Entry(left, Some(u))] && context == old(context)[u := x] && urbs == old(urbs) + {u}
      ensures Rep(Some(Xmit(x, u))) && Ran(old(model), model) && model.hist == old(model).hist
    {
      cb := cb[x := Entry(left, Some(u))];
      context := context[u := x];
      urbs := urbs + {u};
      Fires(model, XmitBegin(me, x, left, u));
      model := NextTransmit(model, XmitBegin(me, x, left, u));
    }

    // The txq.lock section of usbnet_start_xmit, by its outcome.

    method XmitDefer(x: Skb, u: Urb, status: SubmitStatus)
      requires Rep(Some(Xmit(x, u))) && ctl.asleep && !ctl.draining
      modifies this`q, this`ctl, this`model
      ensures ctl == Powered(old(ctl))
      ensures q == old(q).(deferred := old(q).deferred + [u])
      ensures Rep(None) && Ran(old(model), model) && Frees(old(model), model, [], [])
    {
      ctl := Powered(ctl);
      q := q.(deferred := q.deferred + [u]);
      Fires(model, XmitLocked(me, true, status));
      model := NextTransmit(model, XmitLocked(me, true, status));
    }

    method XmitSubmit(x: Skb, u: Urb)
      requires Rep(Some(Xmit(x, u))) && x in cb && !ctl.asleep && !ctl.draining
      modifies this`q, this`cb, this`ctl, this`model
      ensures ctl == Powered(old(ctl))
      ensures q == old(q).(txq := old(q).txq + [x]) && cb == old(cb)[x := old(cb)[x].(state := TxStart)]
      ensures Rep(None) && Ran(old(model), model) && Frees(old(model), model, [], [])
    {
      ghost var s := XmitAccepted(model, me);
      ctl := Powered(ctl);
      q := q.(txq := q.txq + [x]);
      cb := cb[x := cb[x].(state := TxStart)];
      model := s;
    }

    method XmitRefused(x: Skb, u: Urb, pmOk: bool, status: SubmitStatus)
      requires Rep(Some(Xmit(x, u))) && !ctl.draining && (!pmOk || (!ctl.asleep && !status.Accepted?))
      modifies this`model
      ensures Rep(None) && Ran(old(model), model) && Frees(old(model), model, [x], [u])
    {
      Fires(model, XmitLocked(me, pmOk, status));
      model := NextTransmit(model, XmitLocked(me, pmOk, status));
      XmitDropped(x, u);
    }

    /** Frees packet and URB. */
    method XmitDropped(x: Skb, u: Urb)
      requires Rep(Some(XmitFailed(x, u)))
      modifies this`model
      ensures Rep(None) && Ran(old(model), model) && Frees(old(model), model, [x], [u])
    {
      Fires(model, XmitDrop(me));
      model := NextTransmit(model, XmitDrop(me));
    }

    method PacketGivenBack(x: Skb, u: Urb)
      requires Rep(None) && x in q.txq && x in cb && cb[x].urb == Some(u)
      modifies this`ctl, this`model
      ensures ctl == old(ctl).(power := old(ctl).power - 1)
      ensures Rep(Some(TxMid(x))) && Ran(old(model), model) && model.hist == old(model).hist
    {
      Pending(model, x, u);
      ctl := ctl.(power := ctl.power - 1);
      Fires(model, TxGiveback(me, u));
      model := NextSent(model, TxGiveback(me, u));
    }

    method LeaveTxq(x: Skb)
      requires Rep(Some(TxMid(x))) && !ctl.draining
      modifies this`q, this`cb, this`model
      ensures x in old(cb) && cb == old(cb)[x := old(cb)[x].(state := TxDone)]
      ensures q == old(q).(txq := Without(old(q).txq, x))
      ensures Rep(Some(TxMoving(x))) && Ran(old(model), model) && model.hist == old(model).hist
    {
      TxEntry(model, me, x);
      cb := cb[x := cb[x].(state := TxDone)];
      q := q.(txq := Without(q.txq, x));
      Fires(model, TxUnlink(me));
      model := NextSent(model, TxUnlink(me));
    }

    method PacketDone(x: Skb)
      requires Rep(Some(TxMoving(x)))
      modifies this`q, this`model
      ensures q == old(q).(done := old(q).done + [x])
      ensures Rep(None) && Ran(old(model), model) && model.hist == old(model).hist
    {
      q := q.(done := q.done + [x]);
      Fires(model, TxQueueDone(me));
      model := NextSent(model, TxQueueDone(me));
    }

    // ----- atomic sections of unlinking, suspend and resume --------------------------------

    /** Marks and pins an entry; the lock is then free, and other handlers may run. */
    method Pick(rx: bool) returns (x: Skb, ghost t: Tid)
      requires Rep(None) && !ctl.draining && FirstToUnlink(cb, List(rx)).Some?
      modifies this`cb, this`me, this`others, this`model
      ensures Some(x) == FirstToUnlink(old(cb), List(rx))
      ensures x in old(cb) && cb == old(cb)[x := old(cb)[x].(state := UnlinkStart)]
      ensures t == old(me) && old(cb)[x].urb.Some? && others == old(others)[t := Unlinking(old(cb)[x].urb, x)]
      ensures model.hist == old(model).hist.(unlinkCalls := old(model).unlinkCalls + [x])
      ensures Rep(None) && Ran(old(model), model)
    {
      Queued(model);
      x := FirstToUnlink(cb, List(rx)).value;
      t := me;
      ghost var s := Picked(model, me, rx);
      cb := cb[x := cb[x].(state := UnlinkStart)];
      others := others[me := Unlinking(cb[x].urb, x)];
      FreshId(others.Keys);
      ghost var m :| m !in others;
      me := m;
      model := s;
    }

    method Put(ghost t: Tid)
      requires Rep(None) && t in others
      modifies this`others, this`model
      ensures others == old(others) - {t}
      ensures Rep(None) && Ran(old(model), model) && model.hist == old(model).hist
    {
      ghost var s := PutBack(model, t);
      others := others - {t};
      model := s;
    }

    method FallAsleep(auto: bool) returns (busy: bool)
      requires Rep(None) && !ctl.draining
      modifies this`ctl, this`model
      ensures busy == (old(ctl).suspendCount == 0 && q.txq != [] && auto)
      ensures ctl == if busy then old(ctl)
                     else if old(ctl).suspendCount > 0 then old(ctl).(suspendCount := old(ctl).suspendCount + 1)
                     else old(ctl).(suspendCount := 1, asleep := true)
      ensures Rep(None) && Ran(old(model), model) && model.hist == old(model).hist
    {
      ghost var s := Dozed(model, auto);
      busy := false;
      if ctl.suspendCount > 0 {
        ctl := ctl.(suspendCount := ctl.suspendCount + 1);
      } else if q.txq != [] && auto {
        busy := true;
      } else {
        ctl := ctl.(suspendCount := 1, asleep := true);
      }
      model := s;
    }

    method Sweep()
      requires Rep(None) && ctl.asleep && !ctl.draining && FirstToUnlink(cb, q.rxq).None?
      modifies this`ctl, this`model
      ensures ctl == old(ctl).(swept := true)
      ensures Rep(None) && Ran(old(model), model) && model.hist == old(model).hist
    {
      ctl := ctl.(swept := true);
      Fires(model, SweepDone);
      model := NextSuspending(model, SweepDone);
    }

    /** Drops one suspension; when it was the last, takes txq.lock for the drain. */
    method BeginResume()
      requires Rep(None) && ctl.suspendCount > 0 && !ctl.draining
      modifies this`ctl, this`model
      ensures ctl == old(ctl).(suspendCount := old(ctl).suspendCount - 1, draining := old(ctl).suspendCount == 1)
      ensures Rep(None) && Ran(old(model), model) && model.hist == old(model).hist
    {
      ctl := ctl.(suspendCount := ctl.suspendCount - 1, draining := ctl.suspendCount == 1);
      Fires(model, ResumeBegin);
      model := NextResuming(model, ResumeBegin);
    }

    /** One turn of the drain loop: the oldest deferred packet is submitted, or dropped. */
    method DrainOne(ok: bool) returns (x: Skb)
      requires Rep(None) && ctl.draining && q.deferred != []
      modifies this`q, this`ctl, this`model
      ensures old(q).deferred[0] in context && x == context[old(q).deferred[0]]
      ensures q == old(q).(deferred := old(q).deferred[1..], txq := if ok then old(q).txq + [x] else old(q).txq)
      ensures ctl == old(ctl).(power := old(ctl).power - if ok then 0 else 1)
      ensures Rep(None) && Ran(old(model), model)
      ensures Frees(old(model), model, if ok then [] else [x], if ok then [] else [old(q).deferred[0]])
    {
      ghost var s := Drained(model, ok);
      x := context[q.deferred[0]];
      q := q.(deferred := q.deferred[1..]);
      if ok {
        q := q.(txq := q.txq + [x]);
      } else {
        ctl := ctl.(power := ctl.power - 1);
      }
      model := s;
    }

    method EndResume()
      requires Rep(None) && ctl.draining && q.deferred == []
      modifies this`ctl, this`model
      ensures ctl == old(ctl).(draining := false, asleep := false, swept := false)
      ensures Rep(None) && Ran(old(model), model) && model.hist == old(model).hist
    {
      ctl := ctl.(draining := false, asleep := false, swept := false);
      Fires(model, ResumeEnd);
      model := NextResuming(model, ResumeEnd);
    }

    // ----- the receive handlers ------------------------------------------------------------

    /** rx_submit: queues a read, or frees its URB and any buffer; a failure may leave RX_HALT or RX_MEMORY set. */
    method RxSubmit(u: Urb, x: Skb, allocOk: bool, running: bool, status: SubmitStatus) returns (ok: bool)
      requires Rep(Some(Submit(u))) && x !in cb
      modifies this`q, this`cb, this`context, this`ctl, this`model
      ensures Rep(None) && Ran(old(model), model)
      ensures ok == (!old(ctl).kill && allocOk && running && !old(ctl).halt && !old(ctl).asleep && status.Accepted?)
      ensures q == if ok then old(q).(rxq := old(q).rxq + [x]) else old(q)
      ensures var go := !old(ctl).kill && allocOk && running && !old(ctl).halt && !old(ctl).asleep;
        ctl == old(ctl).(halt := old(ctl).halt || (go && status.Stalled?),
                         memory := old(ctl).memory || (!old(ctl).kill && !allocOk) || (go && status.NoMemory?))
      ensures forall y :: y in old(cb) ==> y in cb && cb[y] == old(cb)[y]
      ensures ok ==> x in cb && cb[x] == Entry(RxStart, Some(u))
      ensures Frees(old(model), model, if ok || old(ctl).kill || !allocOk then [] else [x], if ok then [] else [u])
    {
      var ready := AllocBuffer(u, x, allocOk);
      if !ready {
        return false;
      }
      ok := SubmitLocked(u, x, running, status);
      if !ok {
        DropFailed(u, x);
      }
    }

    /** defer_bh as rx_complete calls it: moves a read to the done queue and tells its former state. */
    method DeferRead(x: Skb, next: SkbState, ghost keep: Option<Urb>) returns (was: SkbState)
      requires Rep(Some(RxMid(x, next, keep)))
      modifies this`q, this`cb, this`model
      ensures x in old(cb) && was == old(cb)[x].state && cb == old(cb)[x := old(cb)[x].(state := next)]
      ensures q == old(q).(rxq := Without(old(q).rxq, x), done := old(q).done + [x])
      ensures Rep(Some(RxAfter(was, keep))) && Ran(old(model), model) && model.hist == old(model).hist
    {
      was := LeaveRxq(x, next, keep);
      ReadDone(x, was, keep);
    }

    /** Counts a read; true when too many of the last ones were in error. */
    method CountRead(good: bool) returns (tooMany: bool)
      modifies this`pktCnt, this`pktErr
      ensures (pktCnt, pktErr) == CountOne((old(pktCnt), old(pktErr)), good)
      ensures tooMany == (pktErr > 20)
    {
      pktCnt := pktCnt + 1;
      tooMany := false;
      if pktCnt > 30 {
        pktCnt, pktErr := 0, 0;
      } else {
        if !good {
          pktErr := pktErr + 1;
        }
        tooMany := pktErr > 20;
      }
    }

    /** rx_complete up to defer_bh. */
    method Examine(x: Skb, u: Urb, verdict: RxStatus)
      requires Rep(None) && x in q.rxq && x in cb && cb[x].urb == Some(u)
      modifies this`cb, this`ctl, this`pktCnt, this`pktErr, this`model
      ensures cb == old(cb)[x := old(cb)[x].(urb := Named(verdict, u))]
      ensures ctl == old(ctl).(halt := old(ctl).halt || verdict == Block(true), kill := old(ctl).kill || pktErr > 20)
      ensures (pktCnt, pktErr) == CountOne((old(pktCnt), old(pktErr)), verdict.Good?)
      ensures Rep(Some(RxMid(x, NextState(verdict), Kept(verdict, u)))) && Ran(old(model), model)
      ensures model.hist == old(model).hist
    {
      ReadGivenBack(x, u);
      Classify(x, u, verdict);
      var tooMany := CountRead(verdict.Good?);
      SetKill(ctl.kill || tooMany, Some(RxMid(x, NextState(verdict), Kept(verdict, u))));
    }

    /** rx_complete up to and with defer_bh. */
    method TakeRead(x: Skb, u: Urb, verdict: RxStatus) returns (was: SkbState)
      requires Rep(None) && x in q.rxq && x in cb && cb[x].urb == Some(u)
      modifies this`q, this`cb, this`ctl, this`pktCnt, this`pktErr, this`model
      ensures Rep(Some(RxAfter(was, Kept(verdict, u)))) && Ran(old(model), model) && model.hist == old(model).hist
      ensures (pktCnt, pktErr) == CountOne((old(pktCnt), old(pktErr)), verdict.Good?)
      ensures ctl == old(ctl).(halt := old(ctl).halt || verdict == Block(true), kill := old(ctl).kill || pktErr > 20)
      ensures was == old(cb)[x].state && cb == old(cb)[x := Entry(NextState(verdict), Named(verdict, u))]
      ensures q == old(q).(rxq := Without(old(q).rxq, x), done := old(q).done + [x])
    {
      Examine(x, u, verdict);
      was := DeferRead(x, NextState(verdict), Kept(verdict, u));
    }

    /** The end of rx_complete: its URB, unless the entry has it, is submitted again or freed. */
    method Resubmit(was: SkbState, keep: Option<Urb>, running: bool, y: Skb, allocOk: bool,
        status: SubmitStatus) returns (again: bool)
      requires Rep(Some(RxAfter(was, keep))) && y !in cb
      modifies this`q, this`cb, this`context, this`ctl, this`model
      ensures Rep(None) && Ran(old(model), model)
      ensures var c := old(ctl);
        var tried := keep.Some? && running && !c.halt && was != UnlinkStart;
        && again == (tried && MaySubmit(c, running, allocOk) && status.Accepted?)
        && ctl == (if tried then AfterSubmit(c, running, allocOk, status) else c)
        && Frees(old(model), model, if tried && !c.kill && allocOk && !again then [y] else [],
                 if keep.Some? && !again then [keep.value] else [])
      ensures q == if again then old(q).(rxq := old(q).rxq + [y]) else old(q)
      ensures forall z :: z in old(cb) ==> z in cb && cb[z] == old(cb)[z]
      ensures again ==> y in cb && cb[y] == Entry(RxStart, keep)
    {
      again := Decide(was, keep, running);
      if again {
        again := RxSubmit(keep.value, y, allocOk, running, status);
      }
    }

    /** rx_complete: the read goes to the done queue, and a new one takes its place on rxq if it may. */
    method RxComplete(x: Skb, u: Urb, verdict: RxStatus, running: bool, y: Skb, allocOk: bool,
        status: SubmitStatus) returns (again: bool)
      requires Valid() && x in q.rxq && x in cb && cb[x].urb == Some(u) && y !in cb
      modifies this`q, this`cb, this`context, this`ctl, this`pktCnt, this`pktErr, this`model
      ensures Valid() && Ran(old(model), model)
      ensures (pktCnt, pktErr) == CountOne((old(pktCnt), old(pktErr)), verdict.Good?)
      ensures var c := old(ctl).(kill := old(ctl).kill || pktErr > 20, halt := old(ctl).halt || verdict == Block(true));
        var tried := !verdict.Block? && running && !c.halt && old(cb)[x].state != UnlinkStart;
        && again == (tried && MaySubmit(c, running, allocOk) && status.Accepted?)
        && ctl == (if tried then AfterSubmit(c, running, allocOk, status) else c)
        && Frees(old(model), model, if tried && !c.kill && allocOk && !again then [y] else [],
                 if !verdict.Block? && !again then [u] else [])
      ensures q == old(q).(rxq := Without(old(q).rxq, x) + (if again then [y] else []), done := old(q).done + [x])
      ensures x in cb && cb[x].state == (if verdict.Good? then RxDone else RxCleanup)
                      && cb[x].urb == if verdict.Block? then Some(u) else None
      ensures forall z :: z in old(cb) && z != x ==> z in cb && cb[z] == old(cb)[z]
      ensures again ==> y in cb && cb[y] == Entry(RxStart, Some(u))
    {
      var was := TakeRead(x, u, verdict);
      again := Resubmit(was, Kept(verdict, u), running, y, allocOk, status);
    }

    /** rx_alloc_submit: one read a turn, at most ten, until rxq is full or a turn fails. */
    method RxAllocSubmit(running: bool, tries: nat -> Try)
      requires Valid()
      modifies this`q, this`cb, this`context, this`urbs, this`ctl, this`model
      ensures Valid() && Ran(old(model), model)
      ensures Extended(old(cb), old(q), cb, q)
      ensures ToppedUp(old(ctl), ctl, |old(q).rxq|, |q.rxq|, rxQlen, running, tries)
      ensures old(model).skbFrees <= model.skbFrees && old(model).urbFrees <= model.urbFrees
    {
      var i := 0;
      while i < 10 && |q.rxq| < rxQlen
        invariant Valid() && Ran(old(model), model) && 0 <= i <= 10 && ctl == old(ctl)
        invariant Extended(old(cb), old(q), cb, q) && |q.rxq| == |old(q).rxq| + i
        invariant i > 0 ==> |q.rxq| <= rxQlen && MaySubmit(ctl, running, true)
        invariant AllSucceed(tries, i)
        invariant old(model).skbFrees <= model.skbFrees && old(model).urbFrees <= model.urbFrees
      {
        if !tries(i).urbOk {
          return;
        }
        ghost var cb1, q1 := cb, q;
        var ok := SubmitOne(running, tries(i).allocOk, tries(i).status);
        ExtendedOn(old(cb), old(q), cb1, q1, cb, q);
        if !ok {
          return;
        }
        i := i + 1;
      }
    }

    /** usb_alloc_urb, which succeeded, and rx_submit. */
    method SubmitOne(running: bool, allocOk: bool, status: SubmitStatus) returns (ok: bool)
      requires Rep(None)
      modifies this`q, this`cb, this`context, this`urbs, this`ctl, this`model
      ensures Rep(None) && Ran(old(model), model)
      ensures ok == (MaySubmit(old(ctl), running, allocOk) && status.Accepted?)
      ensures Extended(old(cb), old(q), cb, q) && |q.rxq| == |old(q).rxq| + if ok then 1 else 0
      ensures ctl == AfterSubmit(old(ctl), running, allocOk, status)
      ensures old(model).skbFrees <= model.skbFrees && old(model).urbFrees <= model.urbFrees
    {
      FreshId(urbs);
      FreshId(cb.Keys);
      var u: Urb :| u !in urbs;
      var x: Skb :| x !in cb;
      AllocUrb(u);
      ok := RxSubmit(u, x, allocOk, running, status);
      assert q.rxq == old(q).rxq + if ok then [x] else [];
    }

    /** The RX_MEMORY part of kevent. */
    method KeventRxMemory(running: bool, urbOk: bool, pmOk: bool, allocOk: bool, status: SubmitStatus)
      requires Valid()
      modifies this`q, this`cb, this`context, this`urbs, this`ctl, this`model
      ensures Valid() && Ran(old(model), model)
      ensures !old(ctl).memory || (running && !urbOk) ==> q == old(q) && ctl == old(ctl) && cb == old(cb)
      ensures old(ctl).memory && (!running || (urbOk && !pmOk)) ==>
                q == old(q) && ctl == old(ctl).(memory := false) && cb == old(cb)
      ensures old(ctl).memory && running && urbOk && pmOk ==>
                var c := old(ctl).(memory := false);
                && ctl == AfterSubmit(c, running, allocOk, status)
                && |q.rxq| == |old(q).rxq| + (if MaySubmit(c, running, allocOk) && status.Accepted? then 1 else 0)
      ensures Extended(old(cb), old(q), cb, q)
    {
      if ctl.memory {
        if !running {
          ClearMemory();
        } else if urbOk {
          RetryRead(running, pmOk, allocOk, status);
        }
      }
    }

    method RetryRead(running: bool, pmOk: bool, allocOk: bool, status: SubmitStatus)
      requires Valid()
      modifies this`q, this`cb, this`context, this`urbs, this`ctl, this`model
      ensures Rep(None) && Ran(old(model), model)
      ensures var c := old(ctl).(memory := false);
        if pmOk then
          && ctl == AfterSubmit(c, running, allocOk, status)
          && |q.rxq| == |old(q).rxq| + (if MaySubmit(c, running, allocOk) && status.Accepted? then 1 else 0)
        else ctl == c && q == old(q) && cb == old(cb)
      ensures Extended(old(cb), old(q), cb, q)
    {
      ClearMemory();
      if pmOk {
        var ok := SubmitOne(running, allocOk, status);
      }
    }

    // ----- the tasklet -----------------------------------------------------------------------

    /** What has left the driver's queues of received buffers, and waits where reception is paused. */
    ghost function AsOutcome(): Outcome
      reads this
    {
      Outcome(delivered, q.pause, model.skbFrees, model.urbFrees)
    }

    /** One buffer of the done queue; a received one may go back there, already cleaned up. */
    method BhOne(dest: Skb -> Delivery)
      requires Rep(None) && q.done != []
      modifies this`q, this`cb, this`delivered, this`model
      ensures Rep(None) && Ran(old(model), model)
      ensures q == old(q).(done := q.done, pause := q.pause)
      ensures One(old(cb), old(q).done, dest, old(AsOutcome()), cb, q.done, AsOutcome())
      ensures Work(cb, q.done) < Work(old(cb), old(q).done)
    {
      DoneEntries(model);
      var x := Dequeue();
      assert x !in q.done && x in old(q).done;
      var received := Dispatch(x);
      WorkElsewhere(old(cb), cb, q.done);
      if received {
        WorkAppend(cb, q.done, x);
        ghost var rest := q.done;
        Deliver(x, dest(x));
        assert q.done == rest || q.done == rest + [x];
      }
    }

    /**
     The loop of usbnet_bh.  Received buffers go where dest sends them, in order; all others, and those
     that came back to the done queue, are freed, with the URBs that their entries name.
     */
    method EmptyDone(dest: Skb -> Delivery)
      requires Rep(None)
      modifies this`q, this`cb, this`delivered, this`model
      ensures Rep(None) && Ran(old(model), model)
      ensures q == old(q).(done := [], pause := q.pause)
      ensures delivered == old(delivered) + Filter(old(q).done, Going(old(cb), dest, ToStack))
      ensures q.pause == old(q).pause + Filter(old(q).done, Going(old(cb), dest, ToPause))
      ensures model.skbFrees == old(model).skbFrees + Filter(old(q).done, Finishing(old(cb)))
                                + Filter(old(q).done, Going(old(cb), dest, ToDone))
      ensures model.urbFrees == old(model).urbFrees + UrbsOf(old(cb), Filter(old(q).done, Finishing(old(cb))))
    {
      DoneEntries(model);
      ghost var i, j := 0, 0;
      ghost var done0, o0 := q.done, AsOutcome();
      DoingStart(cb, done0, dest, o0);
      while q.done != []
        invariant Rep(None) && Ran(old(model), model)
        invariant q == old(q).(done := q.done, pause := q.pause)
        invariant 0 <= i && 0 <= j && Doing(old(cb), done0, dest, o0, i, j, cb, q.done, AsOutcome())
        decreases Work(cb, q.done)
      {
        ghost var cb1, done1, o1 := cb, q.done, AsOutcome();
        BhOne(dest);
        if i < |done0| {
          DoingFirst(old(cb), done0, dest, o0, i, cb1, done1, o1, cb, q.done, AsOutcome());
          i := i + 1;
        } else {
          DoingAgain(old(cb), done0, dest, o0, j, cb1, done1, o1, cb, q.done, AsOutcome());
          j := j + 1;
        }
      }
      DoingEnd(old(cb), done0, dest, o0, i, j, cb, AsOutcome());
    }

    /** usbnet_bh: empties the done queue, then tops up rxq. */
    method Bh(running: bool, ready: bool, dest: Skb -> Delivery, tries: nat -> Try)
      requires Valid()
      modifies this`q, this`cb, this`context, this`urbs, this`ctl, this`delivered, this`model
      ensures Valid() && Ran(old(model), model)
      ensures q.done == [] && q.txq == old(q).txq && q.deferred == old(q).deferred && old(q).rxq <= q.rxq
      ensures delivered == old(delivered) + Filter(old(q).done, Going(old(cb), dest, ToStack))
      ensures q.pause == old(q).pause + Filter(old(q).done, Going(old(cb), dest, ToPause))
      ensures old(model).skbFrees + Filter(old(q).done, Finishing(old(cb)))
              + Filter(old(q).done, Going(old(cb), dest, ToDone)) <= model.skbFrees
      ensures old(model).urbFrees + UrbsOf(old(cb), Filter(old(q).done, Finishing(old(cb)))) <= model.urbFrees
      ensures if ready && !old(ctl).halt && |old(q).rxq| < rxQlen
              then ToppedUp(old(ctl).(kill := false), ctl, |old(q).rxq|, |q.rxq|, rxQlen, running, tries)
              else q.rxq == old(q).rxq && ctl == old(ctl).(kill := false)
    {
      EmptyDone(dest);
      SetKill(false, None);
      if ready && !ctl.halt && |q.rxq| < rxQlen {
        RxAllocSubmit(running, tries);
      }
    }

    /** usbnet_resume_rx delivers what was kept while paused; usbnet_purge_paused_rxq frees it. */
    method EmptyPause(purge: bool)
      requires Valid()
      modifies this`q, this`delivered, this`model
      ensures Valid() && Ran(old(model), model)
      ensures q == old(q).(pause := [])
      ensures delivered == old(delivered) + if purge then [] else old(q).pause
      ensures Frees(old(model), model, if purge then old(q).pause else [], [])
    {
      ghost var i := 0;
      while q.pause != []
        invariant Valid() && Ran(old(model), model)
        invariant 0 <= i <= |old(q).pause| && q == old(q).(pause := old(q).pause[i..])
        invariant delivered == old(delivered) + if purge then [] else old(q).pause[..i]
        invariant Frees(old(model), model, if purge then old(q).pause[..i] else [], [])
        decreases |q.pause|
      {
        Unpause(purge);
        assert old(q).pause[..i + 1] == old(q).pause[..i] + [old(q).pause[i]];
        i := i + 1;
      }
    }

    // ----- the transmit handlers -----------------------------------------------------------

    /** usbnet_start_xmit: submits the packet, keeps it for resume, or drops it. */
    method StartXmit(x: Skb, left: SkbState, u: Urb, pmOk: bool, status: SubmitStatus) returns (taken: bool)
      requires Valid() && x !in cb && u !in urbs
      modifies this`q, this`cb, this`context, this`urbs, this`ctl, this`model
      ensures Valid() && Ran(old(model), model)
      ensures taken == (pmOk && (old(ctl).asleep || status.Accepted?))
      ensures context == old(context)[u := x] && urbs == old(urbs) + {u}
      ensures !taken ==> q == old(q) && ctl == old(ctl) && cb == old(cb)[x := Entry(left, Some(u))]
      ensures Frees(old(model), model, if taken then [] else [x], if taken then [] else [u])
      ensures taken ==> ctl == Powered(old(ctl))
      ensures taken && ctl.asleep ==>
                q == old(q).(deferred := old(q).deferred + [u]) && cb == old(cb)[x := Entry(left, Some(u))]
      ensures taken && !ctl.asleep ==>
                q == old(q).(txq := old(q).txq + [x]) && cb == old(cb)[x := Entry(TxStart, Some(u))]
    {
      XmitStart(x, left, u);
      if !pmOk || (!ctl.asleep && !status.Accepted?) {
        XmitRefused(x, u, pmOk, status);
        return false;
      }
      if ctl.asleep {
        XmitDefer(x, u, status);
        return true;
      }
      Twice(old(cb), x, Entry(left, Some(u)), Entry(TxStart, Some(u)));
      XmitSubmit(x, u);
      return true;
    }

    /** tx_complete */
    method TxComplete(x: Skb, u: Urb)
      requires Valid() && x in q.txq && x in cb && cb[x].urb == Some(u)
      modifies this`q, this`cb, this`ctl, this`model
      ensures Valid() && Ran(old(model), model)
      ensures q == old(q).(txq := Without(old(q).txq, x), done := old(q).done + [x])
      ensures ctl == old(ctl).(power := old(ctl).power - 1) && model.hist == old(model).hist
      ensures cb == old(cb)[x := Entry(TxDone, Some(u))]
    {
      PacketGivenBack(x, u);
      LeaveTxq(x);
      PacketDone(x);
    }

    // ----- unlinking -----------------------------------------------------------------------

    /** One completion of whatever is queued. */
    method CompleteSome(rx: bool, x: Skb)
      requires Valid() && x in List(rx)
      modifies this`q, this`cb, this`context, this`ctl, this`pktCnt, this`pktErr, this`model
      ensures Valid() && Ran(old(model), model)
      ensures Steady(old(ctl), ctl)
      ensures Within(q.txq, old(q).txq)
      ensures old(NoReads()) ==> Within(q.rxq, old(q).rxq)
      ensures forall y :: y in old(cb) && (y in q.rxq || y in q.txq) ==> y in cb && cb[y] == old(cb)[y]
      ensures q.deferred == old(q).deferred && model.unlinkCalls == old(model).unlinkCalls
    {
      Queued(model);
      if rx {
        var verdict: RxStatus, running: bool, allocOk: bool, status: SubmitStatus := *, *, *, *;
        FreshId(cb.Keys);
        var y: Skb :| y !in cb;
        var again := RxComplete(x, cb[x].urb.value, verdict, running, y, allocOk, status);
      } else {
        TxComplete(x, cb[x].urb.value);
      }
    }

    /** Any number of completions, while unlink_urbs has dropped the lock. */
    method Meanwhile()
      requires Valid()
      modifies this`q, this`cb, this`context, this`ctl, this`pktCnt, this`pktErr, this`model
      ensures Valid() && Ran(old(model), model)
      ensures Steady(old(ctl), ctl)
      ensures Intact(old(cb), old(q).txq, cb, q.txq)
      ensures old(NoReads()) ==> Intact(old(cb), old(q).rxq, cb, q.rxq)
      ensures q.deferred == old(q).deferred && model.unlinkCalls == old(model).unlinkCalls
    {
      var n: nat := *;
      Queued(model);
      while n > 0
        invariant Valid() && Ran(old(model), model)
        invariant Steady(old(ctl), ctl)
        invariant Intact(old(cb), old(q).txq, cb, q.txq)
        invariant old(NoReads()) ==> Intact(old(cb), old(q).rxq, cb, q.rxq)
        invariant q.deferred == old(q).deferred && model.unlinkCalls == old(model).unlinkCalls
      {
        var rx: bool, i: nat := *, *;
        var list := List(rx);
        if i < |list| {
          CompleteSome(rx, list[i]);
        }
        n := n - 1;
      }
    }

    /**
     unlink_urbs: unlinks what the queue held, one entry at a time.  It ends because each turn
     marks an entry for good, and without new submissions completions only take entries away.
     */
    method UnlinkUrbs(rx: bool) returns (calls: nat)
      requires Valid() && (rx ==> NoReads())
      modifies this`q, this`cb, this`context, this`ctl, this`pktCnt, this`pktErr, this`me, this`others, this`model
      ensures Valid() && Ran(old(model), model) && others == old(others)
      ensures ToUnlink(cb, List(rx)) == {}
      ensures Marked(old(cb), old(List(rx)), cb, List(rx))
      ensures !rx && old(NoReads()) ==> Intact(old(cb), old(q).rxq, cb, q.rxq)
      ensures rx ==> Intact(old(cb), old(q).txq, cb, q.txq)
      ensures |model.unlinkCalls| == |old(model).unlinkCalls| + calls && old(model).unlinkCalls <= model.unlinkCalls
      ensures Unlinked(old(cb), old(List(rx)), List(rx), model.unlinkCalls[|old(model).unlinkCalls|..])
      ensures calls <= |ToUnlink(old(cb), old(List(rx)))|
      ensures Steady(old(ctl), ctl)
      ensures q.deferred == old(q).deferred
    {
      calls := 0;
      ghost var picked := [];
      ghost var cb0, q0, quiet := cb, q, NoReads();
      PrunedNothing(model, rx, quiet);
      while FirstToUnlink(cb, List(rx)).Some?
        invariant Valid() && Ran(old(model), model) && others == old(others)
        invariant |picked| == calls && model.unlinkCalls == old(model).unlinkCalls + picked
        invariant Pruned(rx, quiet, cb0, q0, cb, q) && Picks(cb0, ListOf(q0, rx), cb, ListOf(q, rx), picked)
        invariant Steady(old(ctl), ctl)
        invariant q.deferred == old(q).deferred
        decreases |ToUnlink(cb, List(rx))|
      {
        ghost var cb1, q1 := cb, q;
        ghost var x := UnlinkOne(rx);
        PrunedOn(rx, quiet, cb0, q0, cb1, q1, picked, x, cb, q);
        picked := picked + [x];
        calls := calls + 1;
      }
      NoneToUnlink(cb, List(rx));
      PicksAll(old(cb), old(List(rx)), cb, List(rx), picked);
      assert model.unlinkCalls[|old(model).unlinkCalls|..] == picked;
    }

    method UnlinkOne(rx: bool) returns (ghost x: Skb)
      requires Valid() && (rx ==> NoReads()) && FirstToUnlink(cb, List(rx)).Some?
      modifies this`q, this`cb, this`context, this`ctl, this`pktCnt, this`pktErr, this`me, this`others, this`model
      ensures Valid() && Ran(old(model), model) && others == old(others)
      ensures model.unlinkCalls == old(model).unlinkCalls + [x]
      ensures OnePruned(rx, old(NoReads()), old(cb), old(q), x, cb, q)
      ensures Steady(old(ctl), ctl)
      ensures q.deferred == old(q).deferred
    {
      ghost var cb0, q0, quiet := cb, q, NoReads();
      FirstIsUnmarked(cb, ListOf(q, rx));
      InOneList(model, rx, FirstToUnlink(cb, ListOf(q, rx)).value);
      ghost var t;
      x, t := Pick(rx);
      Meanwhile();
      PrunesOne(rx, quiet, cb0, q0, x, cb, q);
      Put(t);
    }

    // ----- suspend and resume --------------------------------------------------------------

    /** usbnet_suspend; true when an autosuspend is refused. */
    method Suspend(auto: bool) returns (busy: bool)
      requires Valid()
      modifies this`q, this`cb, this`context, this`ctl, this`pktCnt, this`pktErr, this`me, this`others, this`model
      ensures Valid() && Ran(old(model), model) && others == old(others)
      ensures busy == (old(ctl).suspendCount == 0 && old(q).txq != [] && auto)
      ensures busy ==> q == old(q) && ctl == old(ctl) && cb == old(cb)
      ensures !busy ==> ctl.suspendCount == old(ctl).suspendCount + 1
      ensures old(ctl).suspendCount > 0 ==> q == old(q) && cb == old(cb) && ctl.asleep == old(ctl).asleep
      ensures !busy && old(ctl).suspendCount == 0 ==>
                && ctl.asleep && ctl.swept
                && ToUnlink(cb, q.txq) == {} && ToUnlink(cb, q.rxq) == {}
                && Marked(old(cb), old(q).txq, cb, q.txq) && Marked(old(cb), old(q).rxq, cb, q.rxq)
                && old(model).unlinkCalls <= model.unlinkCalls
                && var calls := model.unlinkCalls[|old(model).unlinkCalls|..];
                   && (forall y :: y in q.txq && y in ToUnlink(old(cb), old(q).txq) ==> y in calls)
                   && (forall y :: y in q.rxq && y in ToUnlink(old(cb), old(q).rxq) ==> y in calls)
      ensures q.deferred == old(q).deferred
    {
      busy := FallAsleep(auto);
      if !busy && ctl.suspendCount == 1 {
        Quiesce();
      }
    }

    /** The unlinking of usbnet_terminate_urbs. */
    method Quiesce()
      requires Valid() && ctl.asleep
      modifies this`q, this`cb, this`context, this`ctl, this`pktCnt, this`pktErr, this`me, this`others, this`model
      ensures Valid() && Ran(old(model), model) && others == old(others)
      ensures ctl.asleep && ctl.swept && ctl.suspendCount == old(ctl).suspendCount
      ensures ToUnlink(cb, q.txq) == {} && ToUnlink(cb, q.rxq) == {}
      ensures Marked(old(cb), old(q).txq, cb, q.txq) && Marked(old(cb), old(q).rxq, cb, q.rxq)
      ensures old(model).unlinkCalls <= model.unlinkCalls
      ensures var calls := model.unlinkCalls[|old(model).unlinkCalls|..];
        && (forall y :: y in q.txq && y in ToUnlink(old(cb), old(q).txq) ==> y in calls)
        && (forall y :: y in q.rxq && y in ToUnlink(old(cb), old(q).rxq) ==> y in calls)
      ensures q.deferred == old(q).deferred
    {
      var tx := UnlinkUrbs(false);
      ghost var cb1, q1, m1 := cb, q, model;
      var rx := UnlinkUrbs(true);
      StillMarked(cb1, q1.txq, cb, q.txq);
      BothUnlinked(old(cb), old(q), cb1, q1, cb, q, old(model).unlinkCalls, m1.unlinkCalls, model.unlinkCalls);
      assert forall y :: y in q.rxq ==> y !in ToUnlink(cb, q.rxq);
      Sweep();
    }

    /**
     The drain of usbnet_resume, under txq.lock.  The packets whose URBs usb_submit_urb accepts are
     queued in order, the others are freed and give up their power references.
     */
    method Drain(accepts: Urb -> bool)
      requires Rep(None) && ctl.draining
      modifies this`q, this`ctl, this`model
      ensures Rep(None) && Ran(old(model), model)
      ensures q == old(q).(deferred := [],
                           txq := old(q).txq + Carried(context, Filter(old(q).deferred, accepts)))
      ensures ctl == old(ctl).(power := old(ctl).power - |Filter(old(q).deferred, Not(accepts))|)
      ensures var failed := Filter(old(q).deferred, Not(accepts));
        Frees(old(model), model, Carried(context, failed), failed)
    {
      ghost var i := 0;
      ghost var q0, c0, m0 := q, ctl, model;
      DrainsNothing(q, ctl, model, context, accepts);
      while q.deferred != []
        invariant Rep(None) && Ran(old(model), model) && ctl.draining
        invariant 0 <= i && Drains(q0, c0, m0, q, ctl, model, context, accepts, i)
        decreases |q.deferred|
      {
        DrainTurn(accepts, q0, c0, m0, i);
        i := i + 1;
      }
      assert q0.deferred[..i] == q0.deferred;
    }

    method DrainTurn(accepts: Urb -> bool, ghost q0: Queues, ghost c0: Control, ghost m0: State, ghost i: nat)
      requires Rep(None) && ctl.draining && q.deferred != []
      requires Drains(q0, c0, m0, q, ctl, model, context, accepts, i)
      modifies this`q, this`ctl, this`model
      ensures Rep(None) && Ran(old(model), model) && ctl.draining && |q.deferred| < |old(q).deferred|
      ensures Drains(q0, c0, m0, q, ctl, model, context, accepts, i + 1)
    {
      ghost var q1, c1, m1 := q, ctl, model;
      var x := DrainOne(accepts(q.deferred[0]));
      DrainsOn(q0, c0, m0, q1, c1, m1, q, ctl, model, context, accepts, i);
    }

    /** usbnet_resume up to the end of its section under txq.lock, which only the last one has. */
    method Awaken(accepts: Urb -> bool) returns (awake: bool)
      requires Rep(None) && ctl.suspendCount > 0 && !ctl.draining
      modifies this`q, this`ctl, this`model
      ensures Rep(None) && Ran(old(model), model) && awake == (old(ctl).suspendCount == 1)
      ensures !awake ==> q == old(q) && ctl == old(ctl).(suspendCount := old(ctl).suspendCount - 1)
      ensures awake ==> q == old(q).(deferred := [],
                                     txq := old(q).txq + Carried(context, Filter(old(q).deferred, accepts)))
      ensures awake ==> ctl == Awake(old(ctl), |Filter(old(q).deferred, Not(accepts))|)
      ensures awake ==> var failed := Filter(old(q).deferred, Not(accepts));
                Frees(old(model), model, Carried(context, failed), failed)
    {
      BeginResume();
      awake := ctl.draining;
      if awake {
        Drain(accepts);
        EndResume();
      }
    }

    /** usbnet_resume */
    method Resume(isOpen: bool, ready: bool, running: bool, accepts: Urb -> bool, tries: nat -> Try)
      requires Valid() && ctl.suspendCount > 0
      modifies this`q, this`cb, this`context, this`urbs, this`ctl, this`model
      ensures Valid() && Ran(old(model), model)
      ensures old(ctl).suspendCount > 1 ==>
                q == old(q) && cb == old(cb) && ctl == old(ctl).(suspendCount := old(ctl).suspendCount - 1)
      ensures old(ctl).suspendCount == 1 ==>
                && q == old(q).(deferred := [], rxq := q.rxq,
                                txq := old(q).txq + Carried(old(context), Filter(old(q).deferred, accepts)))
                && old(q).rxq <= q.rxq && !ctl.asleep
                && ctl.power == old(ctl).power - |Filter(old(q).deferred, Not(accepts))|
                && var failed := Filter(old(q).deferred, Not(accepts));
                   var c := Awake(old(ctl), |failed|);
                   && old(model).skbFrees + Carried(old(context), failed) <= model.skbFrees
                   && old(model).urbFrees + failed <= model.urbFrees
                   && if isOpen && ready && !c.halt
                      then ToppedUp(c, ctl, |old(q).rxq|, |q.rxq|, rxQlen, running, tries)
                      else ctl == c && q.rxq == old(q).rxq
    {
      var awake := Awaken(accepts);
      if awake && isOpen && ready && !ctl.halt {
        RxAllocSubmit(running, tries);
      }
    }
  }

  /** The flags when the last resume has ended the sleep and some deferred packets failed. */
  function Awake(c: Control, failures: nat): Control {
    c.(suspendCount := 0, draining := false, asleep := false, swept := false, power := c.power - failures)
  }

  /** The drain after i of the deferred packets. */
  ghost predicate Drains(q0: Queues, c0: Control, m0: State, q: Queues, c: Control, m: State, context: map<Urb, Skb>,
                         accepts: Urb -> bool, i: nat) {
    && i <= |q0.deferred|
    && var past := q0.deferred[..i];
       var failed := Filter(past, Not(accepts));
       && q == q0.(deferred := q0.deferred[i..], txq := q0.txq + Carried(context, Filter(past, accepts)))
       && c == c0.(power := c0.power - |failed|)
       && Frees(m0, m, Carried(context, failed), failed)
  }

  lemma DrainsNothing(q: Queues, c: Control, m: State, context: map<Urb, Skb>, accepts: Urb -> bool)
    ensures Drains(q, c, m, q, c, m, context, accepts, 0)
  {
    assert q.deferred[..0] == [] && q.deferred[0..] == q.deferred;
    assert Carried(context, []) == [];
  }

  lemma DrainsOn(q0: Queues, c0: Control, m0: State, q: Queues, c: Control, m: State,
                 q': Queues, c': Control, m': State, context: map<Urb, Skb>, accepts: Urb -> bool, i: nat)
    requires Drains(q0, c0, m0, q, c, m, context, accepts, i) && q.deferred != [] && q.deferred[0] in context
    requires var u := q.deferred[0];
      && q' == q.(deferred := q.deferred[1..], txq := if accepts(u) then q.txq + [context[u]] else q.txq)
      && c' == c.(power := c.power - if accepts(u) then 0 else 1)
      && Frees(m, m', if accepts(u) then [] else [context[u]], if accepts(u) then [] else [u])
    ensures Drains(q0, c0, m0, q', c', m', context, accepts, i + 1)
  {
    var us := q0.deferred;
    assert q.deferred[0] == us[i] && q.deferred[1..] == us[i + 1..];
    CarriedGrows(q0.txq, context, us, i, accepts);
    CarriedGrows(m0.skbFrees, context, us, i, Not(accepts));
    FilterGrows(m0.urbFrees, us, i, Not(accepts));
    FilterNext(us, i, Not(accepts));
  }

  /** Which deferred packets a resume queues: all if all are accepted, and of each one its outcome decides. */
  lemma AllDeferredSent(context: map<Urb, Skb>, us: seq<Urb>, accepts: Urb -> bool)
    ensures (forall u :: u in us ==> accepts(u)) ==>
              Carried(context, Filter(us, accepts)) == Carried(context, us) && Filter(us, Not(accepts)) == []
    ensures forall u :: u in Filter(us, accepts) <==> u in us && accepts(u)
    ensures forall u :: u in Filter(us, Not(accepts)) <==> u in us && !accepts(u)
    ensures |Filter(us, accepts)| + |Filter(us, Not(accepts))| == |us|
    ensures IsSubsequence(Filter(us, accepts), us)
  {
    FilterHas(us, accepts);
    FilterHas(us, Not(accepts));
    FilterSplits(us, accepts);
    FilterInOrder(us, accepts);
    if forall u :: u in us ==> accepts(u) {
      FilterAll(us, accepts);
    }
  }

  // ----- what unlink_urbs has picked -------------------------------------------------------

  /** The picks so far, and what is still to be picked, account for every entry that was unmarked. */
  ghost predicate Picks(cb0: map<Skb, Entry>, list0: seq<Skb>, cb: map<Skb, Entry>, list: seq<Skb>, picked: seq<Skb>) {
    && NoDup(picked) && |picked| + |ToUnlink(cb, list)| <= |ToUnlink(cb0, list0)|
    && (forall y :: y in picked ==> y in ToUnlink(cb0, list0) && y !in ToUnlink(cb, list))
    && ToUnlink(cb, list) <= ToUnlink(cb0, list0)
    && (forall y :: y in list && y in ToUnlink(cb0, list0) ==> y in picked || y in ToUnlink(cb, list))
  }

  lemma PicksOn(cb0: map<Skb, Entry>, list0: seq<Skb>, cb: map<Skb, Entry>, list: seq<Skb>, picked: seq<Skb>, x: Skb,
                cb': map<Skb, Entry>, list': seq<Skb>)
    requires Picks(cb0, list0, cb, list, picked) && x in ToUnlink(cb, list) && x in cb
    requires Intact(cb[x := cb[x].(state := UnlinkStart)], list, cb', list')
    ensures Picks(cb0, list0, cb', list', picked + [x])
    ensures |ToUnlink(cb', list')| < |ToUnlink(cb, list)|
  {
    forall y | y in ToUnlink(cb', list')
      ensures y in ToUnlink(cb, list) && y != x
    {
      assert y in list' && y in list;
    }
    SmallerSet(ToUnlink(cb', list'), ToUnlink(cb, list) - {x});
    forall y | y in list' && y in ToUnlink(cb0, list0)
      ensures y in picked + [x] || y in ToUnlink(cb', list')
    {
      assert y in list;
    }
  }

  lemma {:induction false} NoneToUnlink(cb: map<Skb, Entry>, q: seq<Skb>)
    requires FirstToUnlink(cb, q).None?
    ensures ToUnlink(cb, q) == {}
  {
    if q != [] {
      NoneToUnlink(cb, q[1..]);
      assert forall y :: y in q ==> y == q[0] || y in q[1..];
    }
  }

  lemma PicksAll(cb0: map<Skb, Entry>, list0: seq<Skb>, cb: map<Skb, Entry>, list: seq<Skb>, picked: seq<Skb>)
    requires Picks(cb0, list0, cb, list, picked) && ToUnlink(cb, list) == {}
    ensures Unlinked(cb0, list0, list, picked)
  {
  }

  /** Marking leaves nothing to unlink where nothing was. */
  lemma StillMarked(cb: map<Skb, Entry>, q: seq<Skb>, cb': map<Skb, Entry>, q': seq<Skb>)
    requires Marked(cb, q, cb', q') && ToUnlink(cb, q) == {}
    ensures ToUnlink(cb', q') == {}
  {
    forall y | y in q'
      ensures y !in ToUnlink(cb', q')
    {
      assert y !in ToUnlink(cb, q);
    }
  }

  /** The two calls of usbnet_terminate_urbs together. */
  lemma BothUnlinked(cb: map<Skb, Entry>, q: Queues, cb1: map<Skb, Entry>, q1: Queues,
                     cb2: map<Skb, Entry>, q2: Queues, log: seq<Skb>, log1: seq<Skb>, log2: seq<Skb>)
    requires log <= log1 <= log2
    requires Unlinked(cb, q.txq, q1.txq, log1[|log|..]) && Intact(cb, q.rxq, cb1, q1.rxq)
    requires Unlinked(cb1, q1.rxq, q2.rxq, log2[|log1|..]) && Intact(cb1, q1.txq, cb2, q2.txq)
    requires Within(q2.rxq, q1.rxq)
    ensures forall y :: y in q2.txq && y in ToUnlink(cb, q.txq) ==> y in log2[|log|..]
    ensures forall y :: y in q2.rxq && y in ToUnlink(cb, q.rxq) ==> y in log2[|log|..]
  {
    assert log2[|log|..] == log1[|log|..] + log2[|log1|..];
  }

  /** Between handlers the driver holds a power reference for each packet queued or deferred. */
  lemma AtRest(d: UsbNet)
    requires d.Valid()
    ensures d.ctl.power == |d.q.txq| + |d.q.deferred|
  {
    assert Unfold(0);
    PowerAtRest(d.model);
  }
}
