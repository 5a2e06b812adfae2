/**
 qmi_wwan_manage_power: a counter merges the requests of the driver and of its subdriver into one
 needs_remote_wakeup flag.  Counting is atomic; the flag is written afterwards.

 A call crosses when its count leaves or reaches zero; only such a call writes the flag.  `crossings`
 numbers them, and `written` is the number of the one whose write came last; both are history.
 */
module QmiPower {

  type Tid = int

  /** What a call that crossed is still to write, and which crossing it was. */
  datatype Due = Due(on: bool, nth: nat)

  datatype State = State(pmcount: int, wakeup: bool, pending: map<Tid, Due>, crossings: nat, written: nat)

  datatype Event = Count(t: Tid, on: bool) | Write(t: Tid)

  const Start: State := State(0, false, map[], 0, 0)

  /** An off always answers an on. */
  predicate Enabled(s: State, e: Event) {
    match e
    case Count(t, on) => t !in s.pending && (on || s.pmcount > 0)
    case Write(t) => t in s.pending
  }

  predicate Crosses(s: State, e: Event) {
    e.Count? && if e.on then s.pmcount + 1 == 1 else s.pmcount - 1 == 0
  }

  function Next(s: State, e: Event): State
    requires Enabled(s, e)
  {
    match e
    case Count(t, on) =>
      var s1 := s.(pmcount := if on then s.pmcount + 1 else s.pmcount - 1);
      if Crosses(s, e) then s1.(crossings := s.crossings + 1,
                                pending := s.pending[t := Due(on, s.crossings + 1)]) else s1
    case Write(t) =>
      s.(wakeup := s.pending[t].on, written := s.pending[t].nth, pending := s.pending - {t})
  }

  ghost predicate Run(s: State, es: seq<Event>, s': State)
    decreases |es|
  {
    if es == [] then s' == s else Enabled(s, es[0]) && Run(Next(s, es[0]), es[1..], s')
  }

  predicate Odd(n: nat) {
    n % 2 == 1
  }

  // ----- any run ---------------------------------------------------------------------------

  /** Crossings alternate between up and down, so their numbers tell which way each went. */
  ghost predicate Numbered(s: State) {
    && s.pmcount >= 0 && Odd(s.crossings) == (s.pmcount > 0) && Odd(s.written) == s.wakeup
    && s.written <= s.crossings
    && forall t :: t in s.pending ==> s.pending[t].on == Odd(s.pending[t].nth) && s.pending[t].nth <= s.crossings
  }

  lemma StepNumbers(s: State, e: Event)
    requires Numbered(s) && Enabled(s, e)
    ensures Numbered(Next(s, e))
  {
  }

  lemma {:induction false} RunNumbers(s: State, es: seq<Event>, s': State)
    requires Numbered(s) && Run(s, es, s')
    ensures Numbered(s')
    decreases |es|
  {
    if es != [] {
      StepNumbers(s, es[0]);
      RunNumbers(Next(s, es[0]), es[1..], s');
    }
  }

  /**
   Over any run, however the calls overlap, the flag tells whether the device is wanted awake
   exactly when an even number of crossings followed the one whose write came last: none, if the
   last to cross was the last to write.
   */
  lemma FlagRightIffEven(es: seq<Event>, s: State)
    requires Run(Start, es, s)
    ensures s.written <= s.crossings
    ensures s.wakeup == (s.pmcount > 0) <==> !Odd(s.crossings - s.written)
  {
    RunNumbers(Start, es, s);
  }

  // ----- overlaps --------------------------------------------------------------------------

  /** A call crosses while the flag of another is still to be written. */
  ghost predicate Overlaps(s: State, e: Event) {
    Crosses(s, e) && exists u :: u in s.pending
  }

  ghost predicate OneByOne(s: State, es: seq<Event>)
    decreases |es|
  {
    es == [] || (Enabled(s, es[0]) && !Overlaps(s, es[0]) && OneByOne(Next(s, es[0]), es[1..]))
  }

  /** The flag, or what is about to be written to it, tells whether anybody wants the device awake. */
  ghost predicate Inv(s: State) {
    && s.pmcount >= 0
    && (s.pending == map[] ==> s.wakeup == (s.pmcount > 0))
    && (forall t :: t in s.pending ==> s.pending[t].on == (s.pmcount > 0) && s.pending.Keys == {t})
  }

  lemma StepKeeps(s: State, e: Event)
    requires Inv(s) && Enabled(s, e) && !Overlaps(s, e)
    ensures Inv(Next(s, e))
  {
    match e
    case Count(t, on) => Empty(s.pending);
    case Write(t) =>
      assert s.pending.Keys == {t};
      assert Next(s, e).pending == map[];
  }

  lemma Empty(m: map<Tid, Due>)
    ensures (forall u :: u !in m) ==> m == map[]
  {
    if forall u :: u !in m {
      assert m.Keys == {};
    }
  }

  lemma {:induction false} RunKeeps(s: State, es: seq<Event>, s': State)
    requires Inv(s) && Run(s, es, s') && OneByOne(s, es)
    ensures Inv(s')
    decreases |es|
  {
    if es != [] {
      StepKeeps(s, es[0]);
      RunKeeps(Next(s, es[0]), es[1..], s');
    }
  }

  /** With no call under way, the device can wake the host exactly while requests are outstanding. */
  lemma WakeupIsWanted(es: seq<Event>, s: State)
    requires Run(Start, es, s) && OneByOne(Start, es)
    ensures s.pmcount >= 0 && (s.pending == map[] ==> s.wakeup == (s.pmcount > 0))
  {
    RunKeeps(Start, es, s);
  }

  /** A continuation without a further overlap ends with no call under way and the flag wrong. */
  ghost predicate CanGoWrong(s: State) {
    exists es, s' :: Run(s, es, s') && OneByOne(s, es) && s'.pending == map[] && s'.wakeup != (s'.pmcount > 0)
  }

  lemma OverlapGoesWrong(s: State, e: Event)
    requires Inv(s) && Enabled(s, e) && Overlaps(s, e)
    ensures CanGoWrong(Next(s, e))
  {
    var u :| u in s.pending;
    var t := e.t;
    var s1 := Next(s, e);
    assert s1.pending.Keys == {t, u};
    var s2 := Next(s1, Write(t));
    assert s2.pending.Keys == {u};
    var s3 := Next(s2, Write(u));
    assert s3.pending == map[];
    assert [Write(t), Write(u)][1..] == [Write(u)];
    assert Run(s2, [Write(u)], s3) && OneByOne(s2, [Write(u)]);
    assert Run(s1, [Write(t), Write(u)], s3) && OneByOne(s1, [Write(t), Write(u)]);
  }

  /** After a step of a run without overlaps the flag can go wrong, before another, exactly when the step is one. */
  lemma WrongIffOverlap(es: seq<Event>, s: State, e: Event)
    requires Run(Start, es, s) && OneByOne(Start, es) && Enabled(s, e)
    ensures CanGoWrong(Next(s, e)) <==> Overlaps(s, e)
  {
    RunKeeps(Start, es, s);
    if Overlaps(s, e) {
      OverlapGoesWrong(s, e);
    } else {
      StepKeeps(s, e);
      forall fs, s' | Run(Next(s, e), fs, s') && OneByOne(Next(s, e), fs)
        ensures s'.pending == map[] ==> s'.wakeup == (s'.pmcount > 0)
      {
        RunKeeps(Next(s, e), fs, s');
      }
    }
  }

  /** Two overlapping calls may write in the wrong order and leave the flag set with nobody wanting it. */
  lemma OverlapLeavesItWrong()
    ensures var s2 := Next(Next(Start, Count(1, true)), Count(2, false));
      && Overlaps(Next(Start, Count(1, true)), Count(2, false))
      && Run(Start, [Count(1, true), Count(2, false), Write(2), Write(1)], Next(Next(s2, Write(2)), Write(1)))
      && Next(Next(s2, Write(2)), Write(1)) == State(0, true, map[], 2, 1)
  {
    var s1 := Next(Start, Count(1, true));
    var s2 := Next(s1, Count(2, false));
    assert s2.pending == map[1 := Due(true, 1), 2 := Due(false, 2)];
    var s3 := Next(s2, Write(2));
    assert s3.pending == map[1 := Due(true, 1)];
    var s4 := Next(s3, Write(1));
    assert s4.pending == map[];
    assert Run(s3, [Write(1)], s4);
    assert [Write(2), Write(1)][1..] == [Write(1)];
    assert Run(s2, [Write(2), Write(1)], s4);
    assert [Count(2, false), Write(2), Write(1)][1..] == [Write(2), Write(1)];
    assert Run(s1, [Count(2, false), Write(2), Write(1)], s4);
    assert [Count(1, true), Count(2, false), Write(2), Write(1)][1..] == [Count(2, false), Write(2), Write(1)];
  }

  class PowerState {
    var pmcount: int
    var wakeup: bool

    constructor ()
      ensures pmcount == 0 && !wakeup
    {
      pmcount, wakeup := 0, false;
    }

    /** One call, from start to end. */
    method ManagePower(on: bool)
      requires (on || pmcount > 0) && pmcount >= 0 && wakeup == (pmcount > 0)
      modifies this
      ensures pmcount == (if on then old(pmcount) + 1 else old(pmcount) - 1) && wakeup == (pmcount > 0)
    {
      var write := false;
      if on {
        pmcount := pmcount + 1;
        write := pmcount == 1;
      } else {
        pmcount := pmcount - 1;
        write := pmcount == 0;
      }
      if write {
        wakeup := on;
      }
    }
  }
}
