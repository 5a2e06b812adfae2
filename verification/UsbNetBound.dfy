/**
 How long rxq can grow by resubmission alone: the exact bound, for handlers in any interleaving.
 */
module UsbNetBound {
  import opened Basics
  import opened UsbNetModel
  import opened UsbNetInvariant
  import opened UsbNetSafety
  import opened UsbNetTrace

  /** A thread that has a read's URB in hand and may yet submit it. */
  predicate Carries(l: Local) {
    match l
    case RxMoving(_, was, keep) => keep.Some? && was != UnlinkStart
    case RxAfter(was, keep) => keep.Some? && was != UnlinkStart
    case Submit(_) => true
    case Ready(_, _) => true
    case Locked(_, _, go) => go
    case _ => false
  }

  function Carriers(threads: map<Tid, Local>): set<Tid> {
    set t | t in threads && Carries(threads[t])
  }

  /** The reads queued and those that may yet be. */
  function Reads(s: State): nat {
    |s.rxq| + |Carriers(s.threads)|
  }

  // ----- no event but an allocation raises it ----------------------------------------------

  lemma CarrierSet(threads: map<Tid, Local>, t: Tid, l: Local)
    ensures |Carriers(threads[t := l])| == |Carriers(threads)| + (if Carries(l) then 1 else 0)
                                           - if t in threads && Carries(threads[t]) then 1 else 0
  {
    var rest := Carriers(threads) - {t};
    assert Carriers(threads[t := l]) == if Carries(l) then rest + {t} else rest;
    assert t in Carriers(threads) ==> Carriers(threads) == rest + {t};
    assert t !in Carriers(threads) ==> Carriers(threads) == rest;
  }

  lemma CarrierGone(threads: map<Tid, Local>, t: Tid)
    ensures |Carriers(threads - {t})| == |Carriers(threads)| - if t in threads && Carries(threads[t]) then 1 else 0
  {
    var rest := Carriers(threads) - {t};
    assert Carriers(threads - {t}) == rest;
    assert t in Carriers(threads) ==> Carriers(threads) == rest + {t};
    assert t !in Carriers(threads) ==> Carriers(threads) == rest;
  }

  /** The event moves at most thread t, to where it is in s'. */
  lemma OneMoves(s: State, s': State, t: Tid)
    requires || s'.threads == s.threads || s'.threads == s.threads - {t}
             || (t in s'.threads && s'.threads == s.threads[t := s'.threads[t]])
    ensures |Carriers(s'.threads)| <= |Carriers(s.threads)|
                                      + (if t in s'.threads && Carries(s'.threads[t]) then 1 else 0)
                                      - if t in s.threads && Carries(s.threads[t]) then 1 else 0
  {
    if t in s'.threads {
      CarrierSet(s.threads, t, s'.threads[t]);
      assert s.threads[t := s'.threads[t]] == s'.threads;
    } else {
      CarrierGone(s.threads, t);
      assert s.threads - {t} == s'.threads;
    }
  }

  lemma LeaverIsQueued(s: State, t: Tid)
    requires Reachable(s) && t in s.threads && s.threads[t].RxMid?
    ensures s.threads[t].x in s.rxq
  {
    ReachableInv(s);
    var x := s.threads[t].x;
    assert RxDoing(s.threads[t]) == Some(x);
    assert x in s.owner && s.owner[x].OnRxq?;
  }

  lemma CompletionKeepsReads(s: State, e: Event)
    requires Reachable(s) && IsCompletion(e) && Enabled(s, e)
    ensures Reads(NextCompletion(s, e)) <= Reads(s)
  {
    if e.RxUnlink? {
      LeaverIsQueued(s, e.t);
    }
    OneMoves(s, NextCompletion(s, e), e.t);
  }

  lemma SubmissionKeepsReads(s: State, e: Event)
    requires IsSubmission(e) && Enabled(s, e)
    ensures Reads(NextSubmission(s, e)) <= Reads(s) + if e.AllocRxUrb? then 1 else 0
  {
    OneMoves(s, NextSubmission(s, e), e.t);
  }

  lemma TaskletKeepsReads(s: State, e: Event)
    requires IsTasklet(e) && Enabled(s, e)
    ensures Reads(NextTasklet(s, e)) <= Reads(s)
  {
    if !e.PauseReturn? {
      OneMoves(s, NextTasklet(s, e), e.t);
    }
  }

  lemma SendKeepsReads(s: State, e: Event)
    requires IsSend(e) && Enabled(s, e)
    ensures Reads(NextSend(s, e)) <= Reads(s)
  {
    OneMoves(s, NextSend(s, e), e.t);
  }

  lemma ControlKeepsReads(s: State, e: Event)
    requires IsControl(e) && Enabled(s, e)
    ensures Reads(NextControl(s, e)) <= Reads(s)
  {
    if IsUnlinking(e) {
      OneMoves(s, NextControl(s, e), e.t);
    }
  }

  lemma StepKeepsReads(s: State, e: Event)
    requires Reachable(s) && Enabled(s, e)
    ensures Reads(Next(s, e)) <= Reads(s) + if e.AllocRxUrb? then 1 else 0
  {
    if IsCompletion(e) {
      CompletionKeepsReads(s, e);
    } else if IsSubmission(e) {
      SubmissionKeepsReads(s, e);
    } else if IsTasklet(e) {
      TaskletKeepsReads(s, e);
    } else if IsSend(e) {
      SendKeepsReads(s, e);
    } else {
      ControlKeepsReads(s, e);
    }
  }

  // ----- and all of it can be reached ------------------------------------------------------

  /** A run without an allocation. */
  ghost predicate Closed(s: State, es: seq<Event>) {
    Run(s, es).Some? && forall e :: e in es ==> !e.AllocRxUrb?
  }

  /** Such a run leads from s to n reads on rxq. */
  ghost predicate CanQueue(s: State, n: nat) {
    exists es :: Closed(s, es) && |Run(s, es).value.rxq| == n
  }

  lemma CanQueueBefore(s: State, e: Event, n: nat)
    requires Enabled(s, e) && !e.AllocRxUrb? && CanQueue(Next(s, e), n)
    ensures CanQueue(s, n)
  {
    var es :| Closed(Next(s, e), es) && |Run(Next(s, e), es).value.rxq| == n;
    assert ([e] + es)[1..] == es;
    assert Closed(s, [e] + es);
  }

  lemma CanQueueNow(s: State)
    ensures CanQueue(s, |s.rxq|)
  {
    assert Run(s, []) == Some(s);
    assert Closed(s, []);
  }

  /** Nothing keeps a carrier from submitting. */
  ghost predicate Willing(s: State) {
    !s.halt && !s.kill && !s.asleep && s.rxLock.None? && forall t :: t in s.threads ==> !s.threads[t].Locked?
  }

  function StepsLeft(l: Local): nat {
    match l
    case RxMoving(_, _, _) => 4
    case RxAfter(_, _) => 3
    case Submit(_) => 2
    case _ => 1
  }

  function Onward(t: Tid, l: Local, x: Skb): Event {
    match l
    case RxMoving(_, _, _) => RxQueueDone(t)
    case RxAfter(_, _) => RxDecide(t, true)
    case Submit(_) => RxAlloc(t, x, true)
    case _ => RxLockTest(t, true)
  }

  /** A carrier that has no buffer yet comes one step nearer to submitting. */
  lemma CarrierStep(s: State, t: Tid, x: Skb)
    requires Willing(s) && t in s.threads && Carries(s.threads[t]) && !s.threads[t].Ready? && x !in s.cb
    ensures var e := Onward(t, s.threads[t], x);
      && Enabled(s, e) && !e.AllocRxUrb?
      && var s' := Next(s, e);
         && Willing(s') && t in s'.threads && s'.threads == s.threads[t := s'.threads[t]]
         && Carries(s'.threads[t]) && StepsLeft(s'.threads[t]) < StepsLeft(s.threads[t]) && s'.rxq == s.rxq
  {
  }

  lemma TestPasses(s: State, t: Tid)
    requires Willing(s) && t in s.threads && s.threads[t].Ready?
    ensures var s' := NextSubmission(s, RxLockTest(t, true));
      && s'.threads == s.threads[t := Locked(s.threads[t].u, s.threads[t].x, true)] && s'.rxq == s.rxq
      && !s'.halt && !s'.kill && !s'.asleep && s'.rxLock == Some(t)
  {
  }

  lemma Accepts(s: State, t: Tid)
    requires t in s.threads && s.threads[t].Locked? && !s.halt && !s.kill && !s.asleep
    ensures var s' := NextSubmission(s, RxSubmitLocked(t, Accepted));
      && !s'.halt && !s'.kill && !s'.asleep && s'.rxLock.None?
      && (s.threads[t].go ==> s'.threads == s.threads - {t} && |s'.rxq| == |s.rxq| + 1)
  {
  }

  /** One carrier submits and is gone. */
  lemma {:induction false} CarrierSubmits(s: State, t: Tid, n: nat)
    requires Willing(s) && t in s.threads && Carries(s.threads[t])
    requires forall s' :: Willing(s') && s'.threads == s.threads - {t} && |s'.rxq| == |s.rxq| + 1 ==> CanQueue(s', n)
    ensures CanQueue(s, n)
    decreases StepsLeft(s.threads[t])
  {
    if s.threads[t].Ready? {
      TestPasses(s, t);
      var s1 := Next(s, RxLockTest(t, true));
      Accepts(s1, t);
      var s2 := Next(s1, RxSubmitLocked(t, Accepted));
      assert s2.threads == s.threads - {t};
      CanQueueBefore(s1, RxSubmitLocked(t, Accepted), n);
      CanQueueBefore(s, RxLockTest(t, true), n);
    } else {
      FreshId(s.cb.Keys);
      var x :| x !in s.cb.Keys;
      CarrierStep(s, t, x);
      var e := Onward(t, s.threads[t], x);
      var s1 := Next(s, e);
      assert s1.threads - {t} == s.threads - {t};
      CarrierSubmits(s1, t, n);
      CanQueueBefore(s, e, n);
    }
  }

  lemma {:induction false} AllSubmit(s: State)
    requires Willing(s)
    ensures CanQueue(s, Reads(s))
    decreases |Carriers(s.threads)|
  {
    var cs := Carriers(s.threads);
    if forall t :: t !in cs {
      assert cs == {};
      CanQueueNow(s);
    } else {
      var t :| t in cs;
      CarrierGone(s.threads, t);
      forall s' | Willing(s') && s'.threads == s.threads - {t} && |s'.rxq| == |s.rxq| + 1
        ensures CanQueue(s', Reads(s))
      {
        AllSubmit(s');
      }
      CarrierSubmits(s, t, Reads(s));
    }
  }

  // ----- from any state --------------------------------------------------------------------

  /** With nobody at rxq.lock and the device awake, other work may clear the flags. */
  lemma FlagsClear(s: State)
    requires !s.asleep && s.rxLock.None? && forall t :: t in s.threads ==> !s.threads[t].Locked?
    ensures CanQueue(s, Reads(s))
  {
    var e := Flags(false, false, s.memory);
    var s1 := NextSuspending(s, e);
    assert Next(s, e) == s1 && s1.threads == s.threads && s1.rxq == s.rxq;
    assert s1.rxLock == s.rxLock && s1.asleep == s.asleep;
    AllSubmit(s1);
    CanQueueBefore(s, e, Reads(s));
  }

  /** A sleeping device can be resumed; that touches no read. */
  ghost predicate Wakeable(s: State) {
    s.asleep ==> s.draining || s.suspendCount > 0
  }

  function WakeUp(s: State): Event {
    if !s.draining then ResumeBegin else if s.deferred != [] then ResumeOne(false) else ResumeEnd
  }

  lemma WakeStep(s: State)
    requires s.asleep && Wakeable(s) && s.rxLock.None?
    ensures var e := WakeUp(s);
      && Enabled(s, e) && !e.AllocRxUrb?
      && var s' := Next(s, e);
         && s'.threads == s.threads && s'.rxq == s.rxq && s'.rxLock == s.rxLock && Wakeable(s')
         && (s'.asleep ==> s'.suspendCount < s.suspendCount
                           || (s'.suspendCount == s.suspendCount && |s'.deferred| < |s.deferred|))
  {
  }

  lemma {:induction false} Wakes(s: State)
    requires Wakeable(s) && s.rxLock.None? && forall t :: t in s.threads ==> !s.threads[t].Locked?
    ensures CanQueue(s, Reads(s))
    decreases s.suspendCount, |s.deferred|
  {
    if s.asleep {
      WakeStep(s);
      var e := WakeUp(s);
      var s1 := Next(s, e);
      if s1.asleep {
        Wakes(s1);
      } else {
        FlagsClear(s1);
      }
      CanQueueBefore(s, e, Reads(s));
    } else {
      FlagsClear(s);
    }
  }

  lemma LockFacts(s: State)
    requires Reachable(s)
    ensures Wakeable(s) && forall t :: t in s.threads && s.threads[t].Locked? <==> s.rxLock == Some(t)
  {
    ReachableInv(s);
  }

  /** Whoever is inside the locked section comes out: with its read queued if its tests had passed. */
  lemma Unlocks(s: State, t: Tid)
    requires t in s.threads && s.threads[t].Locked?
    ensures var s' := NextSubmission(s, RxSubmitLocked(t, Accepted));
      && Reads(s') == Reads(s) && s'.rxLock.None?
      && s'.asleep == s.asleep && s'.draining == s.draining && s'.suspendCount == s.suspendCount
      && (t in s'.threads ==> !s'.threads[t].Locked?)
      && forall k :: k != t && k in s'.threads ==> k in s.threads && s'.threads[k] == s.threads[k]
  {
    var s' := NextSubmission(s, RxSubmitLocked(t, Accepted));
    if t in s'.threads {
      CarrierSet(s.threads, t, s'.threads[t]);
      assert s'.threads == s.threads[t := s'.threads[t]];
    } else {
      CarrierGone(s.threads, t);
      assert s'.threads == s.threads - {t};
    }
  }

  lemma ReachesReads(s: State)
    requires Reachable(s)
    ensures CanQueue(s, Reads(s))
  {
    LockFacts(s);
    if s.rxLock.Some? {
      var t := s.rxLock.value;
      assert t in s.threads && s.threads[t].Locked?;
      Unlocks(s, t);
      var s1 := Next(s, RxSubmitLocked(t, Accepted));
      Wakes(s1);
      CanQueueBefore(s, RxSubmitLocked(t, Accepted), Reads(s));
    } else {
      Wakes(s);
    }
  }

  // ----- theorems --------------------------------------------------------------------------

  lemma {:induction false} ClosedRun(s: State, es: seq<Event>)
    requires Reachable(s) && Closed(s, es)
    ensures Reads(Run(s, es).value) <= Reads(s)
    decreases |es|
  {
    if es != [] {
      assert es[0] in es;
      assert forall e :: e in es[1..] ==> e in es;
      StepKeepsReads(s, es[0]);
      StepReachable(s, es[0]);
      ClosedRun(Next(s, es[0]), es[1..]);
    }
  }

  /**
   From any reachable state, resubmission keeps rxq within a bound over every run without a new
   read exactly when the reads queued and the URBs that completions carry are within it together.
   */
  lemma BoundedIffReads(s: State, bound: nat)
    requires Reachable(s)
    ensures (forall es :: Closed(s, es) ==> |Run(s, es).value.rxq| <= bound) <==> Reads(s) <= bound
  {
    if Reads(s) <= bound {
      forall es | Closed(s, es)
        ensures |Run(s, es).value.rxq| <= bound
      {
        ClosedRun(s, es);
      }
    } else {
      ReachesReads(s);
      var es :| Closed(s, es) && |Run(s, es).value.rxq| == Reads(s);
    }
  }

  /** A run in which a new read is begun only while queued and carried reads leave room for it. */
  ghost predicate Careful(s: State, es: seq<Event>, bound: nat)
    decreases |es|
  {
    || es == []
    || (Enabled(s, es[0]) && (es[0].AllocRxUrb? ==> Reads(s) < bound) && Careful(Next(s, es[0]), es[1..], bound))
  }

  /** Had the tasklet compared rx_qlen with those, rxq would keep within it in every interleaving. */
  lemma {:induction false} CarefulStaysBounded(s: State, es: seq<Event>, bound: nat)
    requires Reachable(s) && Reads(s) <= bound && Careful(s, es, bound)
    ensures Run(s, es).Some? && |Run(s, es).value.rxq| <= bound
    decreases |es|
  {
    if es != [] {
      StepKeepsReads(s, es[0]);
      StepReachable(s, es[0]);
      CarefulStaysBounded(Next(s, es[0]), es[1..], bound);
    }
  }

  /**
   A run as the driver makes it: a new read is begun only while rxq is below the limit, and at most k
   threads carry a read's URB at a time.
   */
  ghost predicate Limited(s: State, es: seq<Event>, limit: nat, k: nat)
    decreases |es|
  {
    && |Carriers(s.threads)| <= k
    && (es == []
        || (Enabled(s, es[0]) && (es[0].AllocRxUrb? ==> |s.rxq| < limit)
            && Limited(Next(s, es[0]), es[1..], limit, k)))
  }

  /** Then rxq stays below their sum, in every interleaving. */
  lemma {:induction false} FewCarriersStayBounded(s: State, es: seq<Event>, limit: nat, k: nat)
    requires Reachable(s) && Reads(s) < limit + k && Limited(s, es, limit, k)
    ensures Run(s, es).Some? && |Run(s, es).value.rxq| < limit + k
    decreases |es|
  {
    if es != [] {
      var e := es[0];
      StepKeepsReads(s, e);
      StepReachable(s, e);
      if e.AllocRxUrb? {
        assert NextSubmission(s, e).rxq == s.rxq;
      }
      FewCarriersStayBounded(Next(s, e), es[1..], limit, k);
    }
  }
}
