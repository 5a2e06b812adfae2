/**
 When a read can be submitted although the device is asleep: which event submits one, which
 states can still do it, and how often it can happen in one suspension.
 */
module UsbNetQuiet {
  import opened Basics
  import opened UsbNetModel
  import opened UsbNetInvariant
  import opened UsbNetSafety
  import opened UsbNetTheorems
  import opened UsbNetTrace

  /** Asleep, and nobody is inside rx_submit's locked section with its tests of the flags passed. */
  ghost predicate Quiet(s: State) {
    s.asleep && forall t :: t in s.threads && s.threads[t].Locked? ==> !s.threads[t].go
  }

  /** The event hands the host controller a read that it did not have. */
  ghost predicate AddsRead(s: State, e: Event)
    requires Enabled(s, e)
  {
    !(Next(s, e).hostRx <= s.hostRx)
  }

  // ----- which event submits a read --------------------------------------------------------

  /** A URB that a thread has in hand is not at the host. */
  lemma InHandIsHere(s: State, t: Tid)
    requires Reachable(s) && t in s.threads && HandUrb(s.threads[t]).Some?
    ensures HandUrb(s.threads[t]).value !in s.hostRx
  {
    ReachableInv(s);
    var u := HandUrb(s.threads[t]).value;
    assert u in s.holder && s.holder[u] == HeldBy(t);
    if u in s.hostRx {
      HostHolds(s, u);
    }
  }

  lemma HostHolds(s: State, u: Urb)
    requires HostRx(s.hostRx, s.cb, s.owner, s.ctx) && ViaEntries(s.cb, s.owner, s.holder, s.threads) && u in s.hostRx
    ensures u in s.holder && s.holder[u].ViaEntry?
  {
    var x := s.ctx[u];
    assert x in s.owner && x in s.cb && s.cb[x].urb == Some(u) && EntryHolds(s.owner[x], s.threads);
  }

  lemma LockedSubmits(s: State, t: Tid, status: SubmitStatus)
    requires t in s.threads && s.threads[t].Locked?
    ensures NextSubmission(s, RxSubmitLocked(t, status)).hostRx ==
              if s.threads[t].go && status.Accepted? then s.hostRx + {s.threads[t].u} else s.hostRx
  {
  }

  /** A read is added exactly by a submission whose tests had passed and that the host accepts. */
  lemma AddsReadExactly(s: State, e: Event)
    requires Reachable(s) && Enabled(s, e)
    ensures AddsRead(s, e) <==> e.RxSubmitLocked? && s.threads[e.t].go && e.status.Accepted?
  {
    ReadsWhenClear(s, e);
    if e.RxSubmitLocked? {
      LockedSubmits(s, e.t, e.status);
      InHandIsHere(s, e.t);
    }
  }

  // ----- quiet states stay quiet -----------------------------------------------------------

  /** Threads inside the locked section were there before, and the device is no more awake. */
  ghost predicate NoNewLock(s: State, s': State) {
    && (forall t :: t in s'.threads && s'.threads[t].Locked? ==> t in s.threads && s.threads[t] == s'.threads[t])
    && (s.asleep ==> s'.asleep)
  }

  lemma CompletionLocks(s: State, e: Event)
    requires IsCompletion(e) && Enabled(s, e)
    ensures NoNewLock(s, NextCompletion(s, e))
  {
  }

  lemma SubmissionLocks(s: State, e: Event)
    requires IsSubmission(e) && Enabled(s, e) && !e.RxLockTest?
    ensures NoNewLock(s, NextSubmission(s, e))
  {
    match e
    case AllocRxUrb(t, u) => assert NoNewLock(s, DoAllocRxUrb(s, t, u));
    case RxAlloc(t, x, ok) => assert NoNewLock(s, DoRxAlloc(s, t, x, ok));
    case RxSubmitLocked(t, status) => assert NoNewLock(s, DoRxSubmitLocked(s, t, status));
    case RxDropFailed(t) => assert NoNewLock(s, DoRxDropFailed(s, t));
  }

  lemma TaskletLocks(s: State, e: Event)
    requires IsTasklet(e) && Enabled(s, e)
    ensures NoNewLock(s, NextTasklet(s, e))
  {
  }

  lemma SendLocks(s: State, e: Event)
    requires IsSend(e) && Enabled(s, e)
    ensures NoNewLock(s, NextSend(s, e))
  {
  }

  lemma ControlLocks(s: State, e: Event)
    requires IsControl(e) && Enabled(s, e) && !e.ResumeEnd?
    ensures NoNewLock(s, NextControl(s, e))
  {
  }

  lemma OthersLock(s: State, e: Event)
    requires Enabled(s, e) && !e.RxLockTest? && !e.ResumeEnd?
    ensures NoNewLock(s, Next(s, e))
  {
    if IsCompletion(e) {
      CompletionLocks(s, e);
    } else if IsSubmission(e) {
      SubmissionLocks(s, e);
    } else if IsTasklet(e) {
      TaskletLocks(s, e);
    } else if IsSend(e) {
      SendLocks(s, e);
    } else {
      ControlLocks(s, e);
    }
  }

  lemma LockTestWhileAsleep(s: State, t: Tid, running: bool)
    requires Enabled(s, RxLockTest(t, running)) && s.asleep
    ensures var s' := NextSubmission(s, RxLockTest(t, running));
      && s'.asleep && s'.threads[t].Locked? && !s'.threads[t].go
      && forall k :: k != t && k in s'.threads ==> k in s.threads && s'.threads[k] == s.threads[k]
  {
  }

  /** From a quiet state nothing but the end of resume leads out, and no read is added meanwhile. */
  lemma QuietStays(s: State, e: Event)
    requires Reachable(s) && Quiet(s) && Enabled(s, e) && !e.ResumeEnd?
    ensures Quiet(Next(s, e)) && !AddsRead(s, e)
    ensures forall x :: x in Next(s, e).rxq ==> x in s.rxq
  {
    AddsReadExactly(s, e);
    ReadsWhenClear(s, e);
    if e.RxLockTest? {
      LockTestWhileAsleep(s, e.t, e.running);
    } else {
      OthersLock(s, e);
    }
  }

  /** The sweep of suspend is past the last moment at which one could slip in. */
  lemma SweptIsQuiet(s: State)
    requires Reachable(s) && s.swept
    ensures Quiet(s)
  {
    ReachableInv(s);
  }

  // ----- the one that may slip in ----------------------------------------------------------

  /** Asleep but not quiet, one read can be submitted, and after it none. */
  lemma LoudSubmits(s: State) returns (t: Tid)
    requires Reachable(s) && s.asleep && !Quiet(s)
    ensures Enabled(s, RxSubmitLocked(t, Accepted)) && AddsRead(s, RxSubmitLocked(t, Accepted))
  {
    t :| t in s.threads && s.threads[t].Locked? && s.threads[t].go;
    AddsReadExactly(s, RxSubmitLocked(t, Accepted));
  }

  lemma OnlyOneInside(s: State, t: Tid)
    requires Reachable(s) && t in s.threads && s.threads[t].Locked?
    ensures forall k :: k in s.threads && s.threads[k].Locked? ==> k == t
  {
    ReachableInv(s);
    assert s.rxLock == Some(t);
  }

  lemma SubmitLeaves(s: State, t: Tid, status: SubmitStatus)
    requires t in s.threads && s.threads[t].Locked?
    ensures var s' := NextSubmission(s, RxSubmitLocked(t, status));
      s'.asleep == s.asleep && (t in s'.threads ==> !s'.threads[t].Locked?)
  {
  }

  lemma AfterItQuiet(s: State, e: Event)
    requires Reachable(s) && s.asleep && Enabled(s, e) && AddsRead(s, e)
    ensures Quiet(Next(s, e))
  {
    AddsReadExactly(s, e);
    SubmitLeaves(s, e.t, e.status);
    OthersLock(s, e);
    OnlyOneInside(s, e.t);
  }

  /** The reads that a run hands to the host. */
  ghost function ReadsAdded(s: State, es: seq<Event>): nat
    decreases |es|
  {
    if es == [] || !Enabled(s, es[0]) then 0
    else (if AddsRead(s, es[0]) then 1 else 0) + ReadsAdded(Next(s, es[0]), es[1..])
  }

  /** A run that ends before resume does. */
  ghost predicate BeforeResumeEnds(s: State, es: seq<Event>) {
    Run(s, es).Some? && forall e :: e in es ==> !e.ResumeEnd?
  }

  lemma {:induction false} QuietRun(s: State, es: seq<Event>)
    requires Reachable(s) && Quiet(s) && BeforeResumeEnds(s, es)
    ensures ReadsAdded(s, es) == 0
    decreases |es|
  {
    if es != [] {
      assert es[0] in es;
      assert forall e :: e in es[1..] ==> e in es;
      QuietStays(s, es[0]);
      StepReachable(s, es[0]);
      QuietRun(Next(s, es[0]), es[1..]);
    }
  }

  lemma StillAsleep(s: State, e: Event)
    requires Enabled(s, e) && s.asleep && !e.ResumeEnd?
    ensures Next(s, e).asleep
  {
    if e.RxLockTest? {
      LockTestWhileAsleep(s, e.t, e.running);
    } else {
      OthersLock(s, e);
    }
  }

  /** Of one suspension, from when the device is asleep to the end of resume, at most one read slips in. */
  lemma {:induction false} AtMostOneRead(s: State, es: seq<Event>)
    requires Reachable(s) && s.asleep && BeforeResumeEnds(s, es)
    ensures ReadsAdded(s, es) <= 1
    decreases |es|
  {
    if es != [] {
      assert es[0] in es;
      assert forall e :: e in es[1..] ==> e in es;
      StepReachable(s, es[0]);
      StillAsleep(s, es[0]);
      if AddsRead(s, es[0]) {
        AfterItQuiet(s, es[0]);
        QuietRun(Next(s, es[0]), es[1..]);
      } else {
        AtMostOneRead(Next(s, es[0]), es[1..]);
      }
    }
  }

  /**
   A device that is asleep is handed no read by any run, before resume ends, exactly when nobody is
   inside the locked section of rx_submit with its tests passed.
   */
  lemma NoReadIffQuiet(s: State)
    requires Reachable(s) && s.asleep
    ensures (forall es :: BeforeResumeEnds(s, es) ==> ReadsAdded(s, es) == 0) <==> Quiet(s)
  {
    if Quiet(s) {
      forall es | BeforeResumeEnds(s, es)
        ensures ReadsAdded(s, es) == 0
      {
        QuietRun(s, es);
      }
    } else {
      var t := LoudSubmits(s);
      var e := RxSubmitLocked(t, Accepted);
      var es := [e];
      assert es[1..] == [];
      assert Run(s, es) == Some(Next(s, e));
      assert BeforeResumeEnds(s, es) && ReadsAdded(s, es) == 1;
    }
  }
}
