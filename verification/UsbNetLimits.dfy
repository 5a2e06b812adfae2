/**
 Where interleavings take the transfer engine beyond what its handlers, run whole, keep to: each
 lemma gives a run that gets there.
 */
module UsbNetLimits {
  import opened Basics
  import opened UsbNetModel

  /** A run in which the tasklet and the work item submit a read only while rxq is empty. */
  function Polite(s: State, es: seq<Event>): Option<State>
    decreases |es|
  {
    if es == [] then Some(s)
    else if Enabled(s, es[0]) && (es[0].AllocRxUrb? ==> s.rxq == [] && !s.memory) then Polite(Next(s, es[0]), es[1..])
    else None
  }

  lemma {:induction false} PoliteIsRun(s: State, es: seq<Event>)
    ensures Polite(s, es).Some? ==> Run(s, es) == Polite(s, es)
    decreases |es|
  {
    if es != [] && Polite(s, es).Some? {
      PoliteIsRun(Next(s, es[0]), es[1..]);
    }
  }

  lemma {:induction false} PoliteJoin(s: State, es: seq<Event>, s': State, fs: seq<Event>)
    requires Polite(s, es) == Some(s')
    ensures Polite(s, es + fs) == Polite(s', fs)
    decreases |es|
  {
    if es == [] {
      assert es + fs == fs;
    } else {
      assert (es + fs)[0] == es[0] && (es + fs)[1..] == es[1..] + fs;
      PoliteJoin(Next(s, es[0]), es[1..], s', fs);
    }
  }

  // One event before a run, by the part of the machine it belongs to.

  lemma Submission(s: State, e: Event, s': State, es: seq<Event>)
    requires IsSubmission(e) && Enabled(s, e) && NextSubmission(s, e) == s'
    requires (e.AllocRxUrb? ==> s.rxq == [] && !s.memory)
    ensures Polite(s, [e] + es) == Polite(s', es)
  {
    assert ([e] + es)[1..] == es;
  }

  lemma Completion(s: State, e: Event, s': State, es: seq<Event>)
    requires IsCompletion(e) && Enabled(s, e) && NextCompletion(s, e) == s'
    ensures Polite(s, [e] + es) == Polite(s', es)
  {
    assert ([e] + es)[1..] == es;
  }

  lemma Transmission(s: State, e: Event, s': State, es: seq<Event>)
    requires IsTransmit(e) && Enabled(s, e) && NextTransmit(s, e) == s'
    ensures Polite(s, [e] + es) == Polite(s', es)
  {
    assert ([e] + es)[1..] == es;
  }

  lemma Suspending(s: State, e: Event, s': State, es: seq<Event>)
    requires IsSuspending(e) && Enabled(s, e) && NextSuspending(s, e) == s'
    ensures Polite(s, [e] + es) == Polite(s', es)
  {
    assert ([e] + es)[1..] == es;
  }

  lemma Resuming(s: State, e: Event, s': State, es: seq<Event>)
    requires IsResuming(e) && Enabled(s, e) && NextResuming(s, e) == s'
    ensures Polite(s, [e] + es) == Polite(s', es)
  {
    assert ([e] + es)[1..] == es;
  }

  /** A packet accepted while the device sleeps, whose control block reads unlink_start from before. */
  const StaleDeferred: State :=
    State(Bufs(map[10 := Entry(UnlinkStart, Some(20))], map[10 := OnAnchor]),
          Urbs(map[20 := 10], map[20 := {Base}], map[20 := ViaAnchor], {}, {}),
          Queues([], [], [], [], [20]), map[],
          Control(None, false, true, false, false, false, 1, false, 1),
          History([10], [], [], map[], [], [], []))

  const StaleTaken: State :=
    State(Bufs(map[10 := Entry(UnlinkStart, Some(20))], map[10 := InHand(1)]),
          Urbs(map[20 := 10], map[20 := {Base}], map[20 := HeldBy(1)], {}, {}),
          Queues([], [], [], [], []), map[1 := Xmit(10, 20)],
          Control(None, false, true, false, false, false, 1, false, 0),
          History([], [], [], map[], [], [], []))

  lemma StaleIsDeferred() returns (es: seq<Event>)
    ensures Polite(Start, es) == Some(StaleDeferred)
  {
    assert StaleTaken.threads - {1} == map[];
    Transmission(StaleTaken, XmitLocked(1, true, Accepted), StaleDeferred, []);
    es := [XmitLocked(1, true, Accepted)] + [];
    Transmission(DoSuspend(Start, false), XmitBegin(1, 10, UnlinkStart, 20), StaleTaken, es);
    es := [XmitBegin(1, 10, UnlinkStart, 20)] + es;
    Suspending(Start, Suspend(false), DoSuspend(Start, false), es);
    es := [Suspend(false)] + es;
  }

  const StaleSent: State :=
    State(Bufs(map[10 := Entry(UnlinkStart, Some(20))], map[10 := OnTxq(Host(20))]),
          Urbs(map[20 := 10], map[20 := {Base, Core}], map[20 := ViaEntry(10)], {}, {20}),
          Queues([], [10], [], [], []), map[],
          Control(None, false, false, false, false, false, 0, false, 1),
          History([10], [(10, true)], [10], map[10 := UnlinkStart], [], [], []))

  /**
   usbnet_resume requeues it without writing its state, so to unlink_urbs it looks unlinked: the
   search finds nothing to do, though the packet is in flight and was never unlinked.
   */
  lemma ResumedPassesForUnlinked() returns (es: seq<Event>, s: State)
    ensures Run(Start, es) == Some(s)
    ensures s.txq == [10] && s.hostTx == {20} && s.unlinkCalls == [] && !s.asleep && !s.draining
    ensures FirstToUnlink(s.cb, s.txq).None?
  {
    s := StaleSent;
    es := StaleIsSent();
    PoliteIsRun(Start, es);
  }

  lemma StaleDrained()
    ensures DoResumeEnd(DoResumeOne(DoResumeBegin(StaleDeferred), true)) == StaleSent
  {
    var s2 := DoResumeOne(DoResumeBegin(StaleDeferred), true);
    assert s2.bufs == StaleSent.bufs by {
      assert s2.owner == StaleSent.owner;
    }
    assert s2.urbs == StaleSent.urbs by {
      assert {Base} + {Core} == {Base, Core};
      assert s2.refs == StaleSent.refs;
      assert s2.holder == StaleSent.holder;
      assert s2.hostTx == StaleSent.hostTx;
    }
    assert s2.queues == StaleSent.queues && s2.hist == StaleSent.hist;
  }

  lemma StaleIsSent() returns (es: seq<Event>)
    ensures Polite(Start, es) == Some(StaleSent)
  {
    StaleDrained();
    var s1 := DoResumeBegin(StaleDeferred);
    var s2 := DoResumeOne(s1, true);
    Resuming(s2, ResumeEnd, StaleSent, []);
    Resuming(s1, ResumeOne(true), s2, [ResumeEnd] + []);
    es := [ResumeOne(true)] + ([ResumeEnd] + []);
    Resuming(StaleDeferred, ResumeBegin, s1, es);
    es := [ResumeBegin] + es;
    var first := StaleIsDeferred();
    PoliteJoin(Start, first, StaleDeferred, es);
    es := first + es;
  }

  /** rx_submit tests EVENT_DEV_ASLEEP under rxq.lock, suspend sets it under txq.lock: a read may slip in. */
  lemma ReadWhileAsleep() returns (es: seq<Event>, s: State)
    ensures Run(Start, es) == Some(s) && s.asleep && s.rxq == [10] && s.hostRx == {20} && s.suspendCount == 1
    ensures s.unlinkCalls == [] && !s.swept
  {
    var s1 := DoAllocRxUrb(Start, 1, 20);
    var s2 := DoRxAlloc(s1, 1, 10, true);
    var s3 := DoRxLockTest(s2, 1, true);
    var s4 := DoSuspend(s3, false);
    s := DoRxSubmitLocked(s4, 1, Accepted);
    Submission(s4, RxSubmitLocked(1, Accepted), s, []);
    es := [RxSubmitLocked(1, Accepted)] + [];
    Suspending(s3, Suspend(false), s4, es);
    es := [Suspend(false)] + es;
    Submission(s2, RxLockTest(1, true), s3, es);
    es := [RxLockTest(1, true)] + es;
    Submission(s1, RxAlloc(1, 10, true), s2, es);
    es := [RxAlloc(1, 10, true)] + es;
    Submission(Start, AllocRxUrb(1, 20), s1, es);
    es := [AllocRxUrb(1, 20)] + es;
    PoliteIsRun(Start, es);
  }

  // ----- the length of rxq -----------------------------------------------------------------

  ghost predicate Clear(s: State) {
    !s.halt && !s.kill && !s.asleep && !s.memory && s.rxLock.None?
  }

  /**
   Threads k to n - 1 are completions that have left rxq and not yet resubmitted; k of them have,
   and thread k may have its new buffer in hand.
   */
  ghost predicate Parked(s: State, k: nat, n: nat, loaded: bool) {
    && Clear(s) && |s.rxq| == k
    && (forall t :: t in s.threads <==> k <= t < n)
    && (forall t :: k <= t < n && (loaded ==> t > k) ==> s.threads[t] == RxAfter(RxStart, Some(t)))
    && (loaded ==> k < n && s.threads[k] == Ready(k, n + k) && n + k in s.cb)
    && (forall t :: k <= t < n ==> t in s.refs)
    && (forall x :: x in s.cb ==> x < n + k + if loaded then 1 else 0) && (forall u :: u in s.refs ==> u < n)
  }

  lemma AllocAgainLeaves(s: State, k: nat, n: nat)
    requires Parked(s, k, n, false) && k < n
    ensures n + k !in s.cb && Parked(DoRxAlloc(Goto(s, k, Submit(k)), k, n + k, true), k, n, true)
  {
    var x := n + k;
    assert x !in s.cb;
    assert k in s.threads;
    var s' := DoRxAlloc(Goto(s, k, Submit(k)), k, x, true);
    assert s'.threads == s.threads[k := Ready(k, x)];
    assert s'.cb == s.cb[x := Entry(Illegal, Some(k))] && s'.refs == s.refs;
  }

  lemma AllocAgainRun(s: State, t: Tid, x: Skb, rest: seq<Event>) returns (es: seq<Event>)
    requires Clear(s) && x !in s.cb && t in s.threads && s.threads[t] == RxAfter(RxStart, Some(t))
    ensures Polite(s, es) == Polite(DoRxAlloc(Goto(s, t, Submit(t)), t, x, true), rest)
  {
    var s1 := Goto(s, t, Submit(t));
    Submission(s1, RxAlloc(t, x, true), DoRxAlloc(s1, t, x, true), rest);
    es := [RxAlloc(t, x, true)] + rest;
    Completion(s, RxDecide(t, true), s1, es);
    es := [RxDecide(t, true)] + es;
  }

  lemma SubmitAgainLeaves(s: State, k: nat, n: nat)
    requires Parked(s, k, n, true)
    ensures Parked(DoRxSubmitLocked(DoRxLockTest(s, k, true), k, Accepted), k + 1, n, false)
  {
    var x := n + k;
    var s' := DoRxSubmitLocked(DoRxLockTest(s, k, true), k, Accepted);
    assert k in s.threads && k in s.refs && x in s.cb;
    assert s'.refs == s.refs[k := Refs(s, k) + {Core}] && s'.cb == s.cb[x := s.cb[x].(state := RxStart)];
    assert s'.threads.Keys == s.threads.Keys - {k};
  }

  lemma SubmitAgainRun(s: State, t: Tid, x: Skb, rest: seq<Event>) returns (es: seq<Event>)
    requires Clear(s) && t in s.threads && s.threads[t] == Ready(t, x)
    ensures Polite(s, es) == Polite(DoRxSubmitLocked(DoRxLockTest(s, t, true), t, Accepted), rest)
  {
    var s1 := DoRxLockTest(s, t, true);
    Submission(s1, RxSubmitLocked(t, Accepted), DoRxSubmitLocked(s1, t, Accepted), rest);
    es := [RxSubmitLocked(t, Accepted)] + rest;
    Submission(s, RxLockTest(t, true), s1, es);
    es := [RxLockTest(t, true)] + es;
  }

  /** As Parked, with a read of thread n's at the host. */
  ghost predicate Reading(s: State, n: nat) {
    && Clear(s) && s.rxq == [n] && n in s.hostRx
    && (forall t :: t in s.threads <==> 0 <= t < n)
    && (forall t :: 0 <= t < n ==> s.threads[t] == RxAfter(RxStart, Some(t)) && t in s.refs)
    && n in s.cb && s.cb[n] == Entry(RxStart, Some(n)) && n in s.ctx && s.ctx[n] == n && n in s.refs
    && (forall x :: x in s.cb ==> x < n + 1) && (forall u :: u in s.refs ==> u < n + 1)
  }

  function Read(s: State, n: nat): State {
    var s2 := DoRxAlloc(DoAllocRxUrb(s, n, n), n, n, true);
    if At(s2, n) == Some(Ready(n, n)) then DoRxSubmitLocked(DoRxLockTest(s2, n, true), n, Accepted) else s2
  }

  /** The same before the submission. */
  ghost predicate Loaded(s: State, n: nat) {
    && Clear(s) && s.rxq == []
    && (forall t :: t in s.threads <==> 0 <= t < n + 1)
    && (forall t :: 0 <= t < n ==> s.threads[t] == RxAfter(RxStart, Some(t)) && t in s.refs)
    && s.threads[n] == Ready(n, n) && n in s.cb && s.cb[n].urb == Some(n) && n in s.ctx && s.ctx[n] == n && n in s.refs
    && (forall x :: x in s.cb ==> x < n + 1) && (forall u :: u in s.refs ==> u < n + 1)
  }

  lemma LoadLeaves(s: State, n: nat)
    requires Parked(s, 0, n, false)
    ensures n !in s.threads && n !in s.refs && n !in s.cb
    ensures Loaded(DoRxAlloc(DoAllocRxUrb(s, n, n), n, n, true), n)
  {
    assert n !in s.threads && n !in s.refs && n !in s.cb;
    var s2 := DoRxAlloc(DoAllocRxUrb(s, n, n), n, n, true);
    assert s2.threads == s.threads[n := Submit(n)][n := Ready(n, n)];
    assert s2.cb == s.cb[n := Entry(Illegal, Some(n))] && s2.refs == s.refs[n := {Base}] && s2.ctx == s.ctx[n := n];
  }

  lemma SubmitLeaves(s: State, n: nat)
    requires Loaded(s, n)
    ensures Reading(DoRxSubmitLocked(DoRxLockTest(s, n, true), n, Accepted), n)
  {
    var s' := DoRxSubmitLocked(DoRxLockTest(s, n, true), n, Accepted);
    assert s'.threads.Keys == s.threads.Keys - {n};
    assert s'.rxq == [] + [n];
  }

  lemma ReadLeaves(s: State, n: nat)
    requires Parked(s, 0, n, false)
    ensures n !in s.threads && n !in s.refs && n !in s.cb && Reading(Read(s, n), n)
  {
    LoadLeaves(s, n);
    SubmitLeaves(DoRxAlloc(DoAllocRxUrb(s, n, n), n, n, true), n);
  }

  lemma ReadRun(s: State, n: nat, rest: seq<Event>) returns (es: seq<Event>)
    requires Clear(s) && s.rxq == [] && n !in s.threads && n !in s.refs && n !in s.cb
    ensures Polite(s, es) == Polite(Read(s, n), rest)
  {
    var s1 := DoAllocRxUrb(s, n, n);
    var s2 := DoRxAlloc(s1, n, n, true);
    es := SubmitAgainRun(s2, n, n, rest);
    Submission(s1, RxAlloc(n, n, true), s2, es);
    es := [RxAlloc(n, n, true)] + es;
    Submission(s, AllocRxUrb(n, n), s1, es);
    es := [AllocRxUrb(n, n)] + es;
  }

  function Complete(s: State, n: nat): State {
    var s1 := DoRxGiveback(s, n, n);
    if At(s1, n) == Some(RxTop(n, n)) then
      var s2 := DoRxClassify(s1, n, Good);
      if At(s2, n) == Some(RxMid(n, RxDone, Some(n))) then
        var s3 := DoRxUnlink(s2, n);
        if s3.threads[n].RxMoving? then DoRxQueueDone(s3, n) else s3
      else s2
    else s1
  }

  /** The same once the read has come back and is about to leave rxq. */
  ghost predicate Leaving(s: State, n: nat) {
    && Clear(s) && s.rxq == [n]
    && (forall t :: t in s.threads <==> 0 <= t < n + 1)
    && (forall t :: 0 <= t < n ==> s.threads[t] == RxAfter(RxStart, Some(t)) && t in s.refs)
    && s.threads[n] == RxMid(n, RxDone, Some(n)) && n in s.cb && s.cb[n].state == RxStart && n in s.refs
    && (forall x :: x in s.cb ==> x < n + 1) && (forall u :: u in s.refs ==> u < n + 1)
  }

  lemma ComeBackLeaves(s: State, n: nat)
    requires Reading(s, n)
    ensures Leaving(DoRxClassify(DoRxGiveback(s, n, n), n, Good), n)
  {
    var s' := DoRxClassify(DoRxGiveback(s, n, n), n, Good);
    assert s'.refs.Keys == s.refs.Keys && s'.cb.Keys == s.cb.Keys;
    assert forall x :: x in s'.cb ==> x in s'.cb.Keys;
    assert forall u :: u in s'.refs ==> u in s'.refs.Keys;
    assert s'.threads.Keys == s.threads.Keys + {n};
  }

  lemma LeaveLeaves(s: State, n: nat)
    requires Leaving(s, n)
    ensures Parked(DoRxQueueDone(DoRxUnlink(s, n), n), 0, n + 1, false)
  {
    WithoutOnly(n);
    var s1 := DoRxUnlink(s, n);
    assert s1.rxq == [] && s1.threads == s.threads[n := RxMoving(n, RxStart, Some(n))];
    assert s1.cb == s.cb[n := s.cb[n].(state := RxDone)] && s1.refs == s.refs && s1.ctl == s.ctl;
    var s' := DoRxQueueDone(s1, n);
    assert s'.threads == s1.threads[n := RxAfter(RxStart, Some(n))] ;
    assert s'.cb == s1.cb && s'.refs == s.refs && s'.rxq == [];
  }

  lemma WithoutOnly(x: Skb)
    ensures Without([x], x) == []
  {
  }

  lemma CompleteLeaves(s: State, n: nat)
    requires Reading(s, n)
    ensures Parked(Complete(s, n), 0, n + 1, false)
  {
    ComeBackLeaves(s, n);
    LeaveLeaves(DoRxClassify(DoRxGiveback(s, n, n), n, Good), n);
  }

  lemma CompleteRun(s: State, n: nat, rest: seq<Event>) returns (es: seq<Event>)
    requires Reading(s, n)
    ensures Polite(s, es) == Polite(Complete(s, n), rest)
  {
    assert n !in s.threads;
    var s1 := DoRxGiveback(s, n, n);
    var s2 := DoRxClassify(s1, n, Good);
    var s3 := DoRxUnlink(s2, n);
    Completion(s3, RxQueueDone(n), DoRxQueueDone(s3, n), rest);
    es := [RxQueueDone(n)] + rest;
    Completion(s2, RxUnlink(n), s3, es);
    es := [RxUnlink(n)] + es;
    Completion(s1, RxClassify(n, Good), s2, es);
    es := [RxClassify(n, Good)] + es;
    Completion(s, RxGiveback(n, n), s1, es);
    es := [RxGiveback(n, n)] + es;
  }

  lemma {:induction false} ParkMany(n: nat) returns (s: State, es: seq<Event>)
    ensures Parked(s, 0, n, false) && Polite(Start, es) == Some(s)
  {
    if n == 0 {
      s, es := Start, [];
    } else {
      var s0, es0 := ParkMany(n - 1);
      ReadLeaves(s0, n - 1);
      var s1 := Read(s0, n - 1);
      CompleteLeaves(s1, n - 1);
      s := Complete(s1, n - 1);
      var es1 := CompleteRun(s1, n - 1, []);
      var es2 := ReadRun(s0, n - 1, es1);
      PoliteJoin(Start, es0, s0, es2);
      es := es0 + es2;
    }
  }

  lemma {:induction false} ResubmitAll(s: State, k: nat, n: nat) returns (s': State, es: seq<Event>)
    requires Parked(s, k, n, false) && k <= n
    ensures Parked(s', n, n, false) && Polite(s, es) == Some(s')
    decreases n - k
  {
    if k == n {
      s', es := s, [];
    } else {
      var s1, es1 := ResubmitOne(s, k, n);
      s', es := ResubmitAll(s1, k + 1, n);
      PoliteJoin(s, es1, s1, es);
      es := es1 + es;
    }
  }

  lemma ResubmitOne(s: State, k: nat, n: nat) returns (s': State, es: seq<Event>)
    requires Parked(s, k, n, false) && k < n
    ensures Parked(s', k + 1, n, false) && Polite(s, es) == Some(s')
  {
    var s1, es1 := LoadOne(s, k, n);
    s', es := SubmitOne(s1, k, n);
    PoliteJoin(s, es1, s1, es);
    es := es1 + es;
  }

  lemma LoadOne(s: State, k: nat, n: nat) returns (s': State, es: seq<Event>)
    requires Parked(s, k, n, false) && k < n
    ensures Parked(s', k, n, true) && Polite(s, es) == Some(s')
  {
    AllocAgainLeaves(s, k, n);
    s' := DoRxAlloc(Goto(s, k, Submit(k)), k, n + k, true);
    es := AllocAgainRun(s, k, n + k, []);
  }

  lemma SubmitOne(s: State, k: nat, n: nat) returns (s': State, es: seq<Event>)
    requires Parked(s, k, n, true)
    ensures Parked(s', k + 1, n, false) && Polite(s, es) == Some(s')
  {
    SubmitAgainLeaves(s, k, n);
    s' := DoRxSubmitLocked(DoRxLockTest(s, k, true), k, Accepted);
    es := SubmitAgainRun(s, k, n + k, []);
  }

  /**
   Resubmission looks at no length.  With completions between leaving rxq and resubmitting, rxq
   outgrows every bound, though a new read is only ever added to an empty queue.
   */
  lemma ReadsOutgrowAnyBound(n: nat) returns (s: State, es: seq<Event>)
    ensures Polite(Start, es) == Some(s) && Run(Start, es) == Some(s) && |s.rxq| == n
  {
    var s0, es0 := ParkMany(n);
    var es1;
    s, es1 := ResubmitAll(s0, 0, n);
    PoliteJoin(Start, es0, s0, es1);
    es := es0 + es1;
    PoliteIsRun(Start, es);
  }
}
