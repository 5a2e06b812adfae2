/**
 The scan of mxser_interrupt.  A board's vector register has one bit a port, clear while that port
 wants service.  A word of bits is the set of the places where it is 1.
 */
module IrqScan {

  const PASS_LIMIT := 99999

  function Below(n: nat): (r: set<nat>)
    ensures forall i: nat :: i in r <==> i < n
  {
    if n == 0 then {} else Below(n - 1) + {n - 1}
  }

  /** The ports that want service, as one reading of the vector shows them. */
  function Pending(vec: set<nat>, max: nat): set<nat> {
    Below(max) - vec
  }

  ghost predicate Ascending(s: seq<nat>) {
    forall i, j :: 0 <= i < j < |s| ==> s[i] < s[j]
  }

  /** s serves each port of p once, lowest first. */
  ghost predicate Serves(s: seq<nat>, p: set<nat>) {
    Ascending(s) && forall i: nat :: i in s <==> i in p
  }

  /**
   One pass over the ports.  Each is marked as it is passed, so the pass may end once the word
   equals the mask: then the ports not yet reached do not want service.
   */
  method Pass(irqbits: set<nat>, mask: set<nat>, max: nat) returns (served: seq<nat>)
    requires mask == Below(max) && irqbits <= mask
    ensures Serves(served, Pending(irqbits, max))
    ensures forall i: nat :: i in served <==> i < max && i !in irqbits
  {
    served := [];
    var bits := irqbits;
    var i := 0;
    while i < max
      invariant 0 <= i <= max && bits == irqbits + Below(i)
      invariant Ascending(served) && forall j :: 0 <= j < |served| ==> served[j] < i
      invariant forall k: nat :: k in served <==> k < i && k !in irqbits
    {
      if bits == mask {
        NoneLeft(irqbits, i, max);
        return;
      }
      if i !in bits {
        served := served + [i];
      }
      bits := bits + {i};
      i := i + 1;
    }
  }

  lemma NoneLeft(irqbits: set<nat>, i: nat, max: nat)
    requires irqbits + Below(i) == Below(max) && i <= max
    ensures forall k: nat :: i <= k < max ==> k in irqbits
  {
    forall k: nat | i <= k < max
      ensures k in irqbits
    {
      assert k in Below(max);
    }
  }

  /** What one turn of the outer loop read and did. */
  datatype Turn = Turn(vec: set<nat>, served: seq<nat>)

  /** Some port is clear in this reading of the register. */
  predicate Calls(reading: set<nat>, max: nat) {
    exists i: nat :: i < max && i !in reading
  }

  /** A turn serves exactly the ports clear in the reading, each once and lowest first. */
  ghost predicate Answers(turn: Turn, reading: set<nat>, max: nat) {
    && turn.vec == reading * Below(max) && Ascending(turn.served)
    && forall i: nat :: i in turn.served <==> i < max && i !in reading
  }

  /**
   The whole interrupt, where read(k) is what the k-th reading of the vector register gives: as long
   as a reading shows a port wanting service its turn answers it, and the loop ends at the first
   reading that shows none, or at the limit on passes.
   */
  method Interrupt(mask: set<nat>, max: nat, read: nat -> set<nat>) returns (handled: bool, turns: seq<Turn>)
    requires mask == Below(max)
    ensures forall k: nat :: k < |turns| ==> Calls(read(k), max) && Answers(turns[k], read(k), max)
    ensures |turns| <= PASS_LIMIT + 2
    ensures |turns| < PASS_LIMIT + 2 ==> !Calls(read(|turns|), max)
    ensures handled == Calls(read(0), max)
  {
    var passCounter := 0;
    handled, turns := false, [];
    while true
      invariant forall k: nat :: k < |turns| ==> Calls(read(k), max) && Answers(turns[k], read(k), max)
      invariant handled == (turns != []) && passCounter == |turns| <= PASS_LIMIT + 1
      decreases PASS_LIMIT + 1 - passCounter
    {
      var irqbits := read(|turns|) * mask;
      Called(read(|turns|), max);
      if irqbits == mask {
        return;
      }
      handled := true;
      var served := Pass(irqbits, mask, max);
      turns := turns + [Turn(irqbits, served)];
      passCounter := passCounter + 1;
      if passCounter - 1 > PASS_LIMIT {
        return;
      }
    }
  }

  lemma Called(reading: set<nat>, max: nat)
    ensures reading * Below(max) == Below(max) <==> !Calls(reading, max)
  {
    if !Calls(reading, max) {
      assert forall i: nat :: i in Below(max) ==> i in reading;
    }
    if i: nat :| i < max && i !in reading {
      assert i in Below(max);
    }
  }
}
