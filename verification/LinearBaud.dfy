/**
 The linear baud rates of mxupcie: the search for a divisor and a sequence, and how the pair it
 finds is encoded in the chip's registers.
 */
module LinearBaud {
  import opened Division

  const FREQUENCY := 14745600
  const MAXDIVISOR := 255
  const MAXSEQUENCE := 46
  const MINSEQUENCE := 4
  const MAX_SPEED := 921600

  /** The sequences the search tries: every one up to 24, then the even ones. */
  predicate IsSequence(j: int) {
    MINSEQUENCE <= j <= MAXSEQUENCE && (j <= 24 || j % 2 == 0)
  }

  predicate Candidate(i: int, j: int) {
    1 <= i <= MAXDIVISOR && IsSequence(j)
  }

  function Rate(i: int, j: int): (r: int) {
    if i > 0 && j > 0 then Divide(FREQUENCY, Times(i, j)) else 0
  }

  /** The rate of a pair is the clock divided by their product, rounded down. */
  lemma RateIsQuotient(i: int, j: int)
    requires i > 0 && j > 0
    ensures Times(Times(i, j), Rate(i, j)) <= FREQUENCY < Times(Times(i, j), Rate(i, j) + 1)
  {
    Quotient(FREQUENCY, Times(i, j));
  }

  function Distance(a: int, b: int): nat {
    if a > b then a - b else b - a
  }

  function Err(i: int, j: int, speed: int): nat {
    Distance(Rate(i, j), speed)
  }

  /** (i, j) is tried before (k, l). */
  predicate Earlier(i: int, j: int, k: int, l: int) {
    i < k || (i == k && j < l)
  }

  /** (d, q) is the first candidate of those with the least score. */
  ghost predicate First(score: (int, int) -> nat, d: int, q: int) {
    && Candidate(d, q)
    && (forall i, j :: Candidate(i, j) ==> score(d, q) <= score(i, j))
    && (forall i, j :: Candidate(i, j) && Earlier(i, j, d, q) ==> score(d, q) < score(i, j))
  }

  /** (d, q) is the first candidate of those nearest the speed. */
  ghost predicate Best(d: int, q: int, speed: int) {
    First((i, j) => Err(i, j, speed), d, q)
  }

  // ----- the search ------------------------------------------------------------------------

  ghost predicate FirstBefore(score: (int, int) -> nat, d: int, q: int, min: int, k: int, l: int) {
    && (forall i, j :: Candidate(i, j) && Earlier(i, j, k, l) ==> min <= score(i, j))
    && (d == 0 ==> min == FREQUENCY)
    && (d != 0 ==> Candidate(d, q) && min == score(d, q)
                   && forall i, j :: Candidate(i, j) && Earlier(i, j, d, q) ==> min < score(i, j))
  }

  function NextSequence(j: int): int {
    if j <= MAXSEQUENCE / 2 then j + 1 else j + 2
  }

  /** What one turn of the inner loop does to the best so far. */
  lemma OneMore(score: (int, int) -> nat, d: int, q: int, min: int, i: int, j: int)
    requires Candidate(i, j) && FirstBefore(score, d, q, min, i, j)
    ensures min > score(i, j) ==> FirstBefore(score, i, j, score(i, j), i, NextSequence(j))
    ensures min <= score(i, j) ==> FirstBefore(score, d, q, min, i, NextSequence(j))
  {
    forall k, l | Candidate(k, l) && Earlier(k, l, i, NextSequence(j))
      ensures Earlier(k, l, i, j) || (k == i && l == j)
    {
    }
  }

  lemma RowDone(score: (int, int) -> nat, d: int, q: int, min: int, i: int, j: int)
    requires j > MAXSEQUENCE && FirstBefore(score, d, q, min, i, j)
    ensures FirstBefore(score, d, q, min, i + 1, MINSEQUENCE)
  {
    forall k, l | Candidate(k, l) && Earlier(k, l, i + 1, MINSEQUENCE)
      ensures Earlier(k, l, i, j)
    {
    }
  }

  lemma AllSeen(score: (int, int) -> nat, d: int, q: int, min: int)
    requires FirstBefore(score, d, q, min, MAXDIVISOR + 1, MINSEQUENCE) && score(1, 16) < FREQUENCY
    ensures First(score, d, q) && min == score(d, q)
  {
    assert Candidate(1, 16) && Earlier(1, 16, MAXDIVISOR + 1, MINSEQUENCE);
    forall k, l | Candidate(k, l)
      ensures Earlier(k, l, MAXDIVISOR + 1, MINSEQUENCE)
    {
    }
  }

  /** The two loops of set_linear_baud, whatever it is that they minimise. */
  method Scan(score: (int, int) -> nat) returns (min: int, divisor: int, sequence: int)
    requires score(1, 16) < FREQUENCY
    ensures First(score, divisor, sequence) && min == score(divisor, sequence)
  {
    min, divisor, sequence := FREQUENCY, 0, 0;
    var i := 1;
    while i <= MAXDIVISOR
      invariant 1 <= i <= MAXDIVISOR + 1 && FirstBefore(score, divisor, sequence, min, i, MINSEQUENCE)
    {
      var j := MINSEQUENCE;
      while j <= MAXSEQUENCE
        invariant MINSEQUENCE <= j <= MAXSEQUENCE + 2 && (j <= 24 || j % 2 == 0)
        invariant FirstBefore(score, divisor, sequence, min, i, j)
        decreases MAXSEQUENCE + 2 - j
      {
        OneMore(score, divisor, sequence, min, i, j);
        var accuracy := score(i, j);
        if min > accuracy {
          min, divisor, sequence := accuracy, i, j;
        }
        j := if j <= MAXSEQUENCE / 2 then j + 1 else j + 2;
      }
      RowDone(score, divisor, sequence, min, i, j);
      i := i + 1;
    }
    AllSeen(score, divisor, sequence, min);
  }

  method Search(speed: int) returns (min: int, divisor: int, sequence: int)
    requires 0 < speed <= MAX_SPEED
    ensures Best(divisor, sequence, speed) && min == Err(divisor, sequence, speed)
  {
    assert Rate(1, 16) == MAX_SPEED;
    min, divisor, sequence := Scan((i, j) => Err(i, j, speed));
  }

  // ----- how near the best is --------------------------------------------------------------

  /** The first clause of Best with one candidate in hand. */
  lemma BestIsNearer(d: int, q: int, speed: int, i: int, j: int)
    requires Best(d, q, speed) && Candidate(i, j)
    ensures Err(d, q, speed) <= Err(i, j, speed)
  {
  }

  /** Some candidate is within 4% of the speed. */
  ghost predicate Reachable(speed: int) {
    exists i, j :: Candidate(i, j) && 25 * Err(i, j, speed) <= speed
  }

  /** Between two rates that differ by at most 8% of the lower, every speed is within 4% of one. */
  lemma Between(i: int, j: int, k: int, l: int, speed: int)
    requires Candidate(i, j) && Candidate(k, l)
    requires Rate(k, l) <= speed <= Rate(i, j) && 25 * (Rate(i, j) - Rate(k, l)) <= 2 * Rate(k, l)
    ensures Reachable(speed)
  {
    if 25 * Err(i, j, speed) > speed {
      assert 25 * Err(k, l, speed) <= speed;
    }
  }

  /** One divisor reaches the speeds between its rates for the sequences 24 and 16. */
  lemma OneDivisor(i: int, speed: int)
    requires 1 <= i <= MAXDIVISOR
    requires FREQUENCY / i / 24 <= speed <= FREQUENCY / i / 16
    ensures Reachable(speed)
  {
    var x := FREQUENCY / i;
    if speed >= x / 17 {
      OneGap(i, 16, speed);
    } else if speed >= x / 18 {
      OneGap(i, 17, speed);
    } else if speed >= x / 19 {
      OneGap(i, 18, speed);
    } else if speed >= x / 20 {
      OneGap(i, 19, speed);
    } else if speed >= x / 21 {
      OneGap(i, 20, speed);
    } else if speed >= x / 22 {
      OneGap(i, 21, speed);
    } else if speed >= x / 23 {
      OneGap(i, 22, speed);
    } else {
      OneGap(i, 23, speed);
    }
  }

  /** Two neighbouring sequences of one divisor are near enough to each other. */
  lemma OneGap(i: int, j: int, speed: int)
    requires 1 <= i <= MAXDIVISOR && 16 <= j < 24
    requires FREQUENCY / i / (j + 1) <= speed <= FREQUENCY / i / j
    ensures Reachable(speed)
  {
    Monotone(i, MAXDIVISOR, 57825);
    QuotientAtLeast(FREQUENCY, i, 57825);
    DivideTwice(FREQUENCY, i, j);
    DivideTwice(FREQUENCY, i, j + 1);
    Steps(FREQUENCY / i, j);
    Between(i, j, i, j + 1, speed);
  }

  lemma Steps(x: int, j: int)
    requires x >= 57825 && 16 <= j < 24
    ensures 25 * (x / j - x / (j + 1)) <= 2 * (x / (j + 1))
  {
    assert j == 16 || j == 17 || j == 18 || j == 19 || j == 20 || j == 21 || j == 22 || j == 23;
  }

  /** The divisors from 2 up reach one range after the other. */
  lemma {:induction false} DivisorsFrom2(i: int, speed: int)
    requires 2 <= i <= MAXDIVISOR
    requires FREQUENCY / i / 24 <= speed <= FREQUENCY / 2 / 16
    ensures Reachable(speed)
    decreases i
  {
    if speed <= FREQUENCY / i / 16 {
      OneDivisor(i, speed);
    } else {
      assert i > 2;
      RangesMeet(i);
      DivisorsFrom2(i - 1, speed);
    }
  }

  lemma RangesMeet(i: int)
    requires 2 < i <= MAXDIVISOR
    ensures FREQUENCY / (i - 1) / 24 <= FREQUENCY / i / 16
  {
    DivideTwice(FREQUENCY, i - 1, 24);
    DivideTwice(FREQUENCY, i, 16);
    Shrinks(FREQUENCY, Times(i - 1, 24), Times(i, 16));
  }

  lemma DivisorOne(speed: int)
    requires 460800 <= speed <= MAX_SPEED
    ensures Reachable(speed)
  {
    assert Rate(1, 16) == 921600 && Rate(1, 24) == 614400 && Rate(5, 5) == 589824;
    assert Rate(1, 26) == 567138 && Rate(1, 28) == 526628 && Rate(1, 30) == 491520 && Rate(1, 32) == 460800;
    if speed >= 614400 {
      OneDivisor(1, speed);
    } else if speed >= 589824 {
      Between(1, 24, 5, 5, speed);
    } else if speed >= 567138 {
      Between(5, 5, 1, 26, speed);
    } else if speed >= 526628 {
      Between(1, 26, 1, 28, speed);
    } else if speed >= 491520 {
      Between(1, 28, 1, 30, speed);
    } else {
      Between(1, 30, 1, 32, speed);
    }
  }

  /** Below, only the largest divisor is left, with ever longer sequences. */
  lemma LargestDivisor(speed: int)
    requires 1257 <= speed <= FREQUENCY / 255 / 24
    ensures Reachable(speed)
  {
    assert Rate(255, 24) == 2409 && Rate(245, 26) == 2314 && Rate(255, 26) == 2224;
    if speed >= 2314 {
      Between(255, 24, 245, 26, speed);
    } else if speed >= 2224 {
      Between(245, 26, 255, 26, speed);
    } else {
      LongSequences(speed);
    }
  }

  lemma LongSequences(speed: int)
    requires 1257 <= speed <= 2224
    ensures Reachable(speed)
  {
    assert Rate(255, 26) == 2224 && Rate(255, 28) == 2065 && Rate(255, 30) == 1927 && Rate(255, 32) == 1807;
    assert Rate(255, 34) == 1700 && Rate(255, 36) == 1606 && Rate(255, 38) == 1521 && Rate(255, 40) == 1445;
    assert Rate(255, 42) == 1376 && Rate(255, 44) == 1314 && Rate(255, 46) == 1257;
    if speed >= 2065 {
      Between(255, 26, 255, 28, speed);
    } else if speed >= 1927 {
      Between(255, 28, 255, 30, speed);
    } else if speed >= 1807 {
      Between(255, 30, 255, 32, speed);
    } else if speed >= 1700 {
      Between(255, 32, 255, 34, speed);
    } else if speed >= 1606 {
      Between(255, 34, 255, 36, speed);
    } else if speed >= 1521 {
      Between(255, 36, 255, 38, speed);
    } else if speed >= 1445 {
      Between(255, 38, 255, 40, speed);
    } else if speed >= 1376 {
      Between(255, 40, 255, 42, speed);
    } else if speed >= 1314 {
      Between(255, 42, 255, 44, speed);
    } else {
      Between(255, 44, 255, 46, speed);
    }
  }

  /** For every speed from 1257 to 921600 the best rate is within 4%. */
  lemma WithinFourPercent(d: int, q: int, speed: int)
    requires 1257 <= speed <= MAX_SPEED && Best(d, q, speed)
    ensures 25 * Err(d, q, speed) <= speed
  {
    if speed >= 460800 {
      DivisorOne(speed);
    } else if speed >= 2409 {
      DivisorsFrom2(255, speed);
    } else {
      LargestDivisor(speed);
    }
    var i, j :| Candidate(i, j) && 25 * Err(i, j, speed) <= speed;
    BestIsNearer(d, q, speed, i, j);
  }

  /** No candidate is slower than 1257. */
  lemma SlowestRate(i: int, j: int)
    requires Candidate(i, j)
    ensures Rate(i, j) >= 1257
  {
    Monotone(i, 255, j);
    assert 1257 * Times(i, j) <= FREQUENCY;
    QuotientAtLeast(FREQUENCY, Times(i, j), 1257);
  }

  /** The test before the encoding. */
  predicate Guard(min: int, speed: int)
    requires speed > 0
  {
    min * 100 / (speed * 100) <= 3
  }

  /** It passes exactly for the speeds from 252 up: below, even the slowest rate is too fast. */
  lemma GuardPassesFrom252(d: int, q: int, speed: int)
    requires 0 < speed <= MAX_SPEED && Best(d, q, speed)
    ensures Guard(Err(d, q, speed), speed) <==> speed >= 252
    ensures speed < 1257 ==> Err(d, q, speed) == 1257 - speed
  {
    var min := Err(d, q, speed);
    SlowestRate(d, q);
    if speed < 1257 {
      assert Rate(255, 46) == 1257;
      BestIsNearer(d, q, speed, 255, 46);
    } else {
      WithinFourPercent(d, q, speed);
    }
    Hundreds(min, speed);
  }

  lemma Hundreds(min: nat, speed: int)
    requires speed > 0
    ensures Guard(min, speed) <==> min < 4 * speed
  {
    QuotientIs(min * 100, speed * 100, min / speed, min % speed * 100);
    Monotone(min / speed + 1, 4, speed);
    Monotone(4, min / speed, speed);
  }
}
