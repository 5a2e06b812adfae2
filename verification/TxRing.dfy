/**
 The transmit page of a Moxa serial port as one writer and the transmit interrupt share it.

 The writer sizes its copy without the lock by a macro that may read xmit_cnt and xmit_head up to four
 times each, copies byte by byte without the lock to where head is then, and only after that moves
 head and count under it.  The interrupt and flushes may come between any two of these steps.

 `accepted`, `gone`, `wire` and `flushed` are history: what was committed, what has left the
 queue, what of that went to the chip, and how many bytes a flush threw away.
 */
module TxRing {
  import opened Basics

  const SIZE := 4096

  datatype Ring = Ring(page: seq<byte>, head: int, tail: int, cnt: int)

  /**
   Where the writer is: sizing its next copy, with src left and some readings of xmit_cnt and xmit_head
   taken, or inside the copy of src[..c] to dest, with k bytes copied.
   */
  datatype Writer =
    | Idle
    | Writing(src: seq<byte>, cnts: seq<int>, heads: seq<int>)
    | Copying(src: seq<byte>, dest: int, c: int, k: int)
    | Putting(ch: byte)

  datatype State = State(ring: Ring, writer: Writer, accepted: seq<byte>, gone: seq<byte>, wire: seq<byte>,
                         flushed: nat)

  datatype Event =
    | Begin(src: seq<byte>) | ReadCnt | ReadHead | Size | CopyByte | Commit
    | PutTest(ch: byte) | PutStore
    | Drain | Flush

  function Min(a: int, b: int): int {
    if a < b then a else b
  }

  /** The i-th place from t, going round the page. */
  function Slot(t: int, i: int): (r: int)
    ensures 0 <= t < SIZE && 0 <= i < SIZE ==> r == if t + i < SIZE then t + i else t + i - SIZE
  {
    (t + i) % SIZE
  }

  /** The size of a copy: what is left, the room in the queue, the room before the page's end. */
  function Chunk(r: Ring, left: nat): int {
    Min(left, Min(SIZE - r.cnt - 1, SIZE - r.head))
  }

  /** The inner MIN of the size as the macro spells it out: it reads to compare, and again for the value. */
  function Room(cnts: (int, int), heads: (int, int)): int {
    if SIZE - cnts.0 - 1 < SIZE - heads.0 then SIZE - cnts.1 - 1 else SIZE - heads.1
  }

  /**
   The whole size: the outer MIN spells the inner one out twice.  In which order C takes the readings
   of one kind and of the other is open; one that is not needed does no harm.
   */
  function MacroChunk(left: nat, cnts: seq<int>, heads: seq<int>): int
    requires |cnts| == 4 && |heads| == 4
  {
    if left < Room((cnts[0], cnts[1]), (heads[0], heads[1])) then left
    else Room((cnts[2], cnts[3]), (heads[2], heads[3]))
  }

  /** The copy takes no more than the caller gave, ends before the page does, and finds room in the queue. */
  predicate InBounds(left: nat, head: int, cnt: int, c: int) {
    c <= left && c <= SIZE - head && c <= SIZE - cnt - 1
  }

  predicate Enabled(s: State, e: Event) {
    match e
    case Begin(_) => s.writer.Idle?
    case ReadCnt => s.writer.Writing? && |s.writer.cnts| < 4
    case ReadHead => s.writer.Writing? && |s.writer.heads| < 4
    case Size => s.writer.Writing? && |s.writer.cnts| == 4 && |s.writer.heads| == 4
    case CopyByte => s.writer.Copying? && s.writer.k < s.writer.c
    case Commit => s.writer.Copying? && s.writer.k == s.writer.c
    case PutTest(_) => s.writer.Idle? && s.ring.cnt < SIZE - 1
    case PutStore => s.writer.Putting?
    case Drain => s.ring.cnt > 0
    case Flush => true
  }

  function Put(page: seq<byte>, i: int, b: byte): seq<byte> {
    if 0 <= i < |page| then page[i := b] else page
  }

  function At(page: seq<byte>, i: int): byte {
    if 0 <= i < |page| then page[i] else 0
  }

  /** The bytes waiting, oldest first. */
  function Queue(r: Ring): (q: seq<byte>)
    ensures |q| == if r.cnt > 0 then r.cnt else 0
  {
    seq(if r.cnt > 0 then r.cnt else 0, i => At(r.page, Slot(r.tail, i)))
  }

  function Next(s: State, e: Event): State
    requires Enabled(s, e)
  {
    var r := s.ring;
    match e
    case Begin(src) => s.(writer := Writing(src, [], []))
    case ReadCnt => s.(writer := s.writer.(cnts := s.writer.cnts + [r.cnt]))
    case ReadHead => s.(writer := s.writer.(heads := s.writer.heads + [r.head]))
    case Size =>
      var c := MacroChunk(|s.writer.src|, s.writer.cnts, s.writer.heads);
      if c <= 0 then s.(writer := Idle) else s.(writer := Copying(s.writer.src, r.head, c, 0))
    case CopyByte =>
      var Copying(src, dest, c, k) := s.writer;
      s.(ring := r.(page := Put(r.page, dest + k, At(src, k))), writer := Copying(src, dest, c, k + 1))
    case Commit =>
      var Copying(src, _, c, _) := s.writer;
      var n := if 0 <= c <= |src| then c else 0;
      s.(ring := r.(head := Slot(r.head, c), cnt := r.cnt + c),
         writer := Writing(src[n..], [], []), accepted := s.accepted + src[..n])
    case PutTest(ch) => s.(writer := Putting(ch))
    case PutStore =>
      s.(ring := Ring(Put(r.page, r.head, s.writer.ch), Slot(r.head, 1), r.tail, r.cnt + 1),
         writer := Idle, accepted := s.accepted + [s.writer.ch])
    case Drain =>
      var b := At(r.page, r.tail);
      s.(ring := r.(tail := Slot(r.tail, 1), cnt := r.cnt - 1), gone := s.gone + [b], wire := s.wire + [b])
    case Flush =>
      s.(ring := r.(head := 0, tail := 0, cnt := 0), gone := s.gone + Queue(r), flushed := s.flushed + |Queue(r)|)
  }

  predicate Started(s: State) {
    s == State(Ring(s.ring.page, 0, 0, 0), Idle, [], [], [], 0) && |s.ring.page| == SIZE
  }

  /** No flush falls inside a copy, and a size keeps within bounds. */
  predicate Proper(s: State, e: Event)
    requires Enabled(s, e)
  {
    match e
    case Flush => !s.writer.Copying?
    case Size =>
      InBounds(|s.writer.src|, s.ring.head, s.ring.cnt, MacroChunk(|s.writer.src|, s.writer.cnts, s.writer.heads))
    case _ => true
  }

  /** The last state of a run; None when some event was not enabled or not proper. */
  function Run(s: State, es: seq<Event>): Option<State>
    decreases |es|
  {
    if es == [] then Some(s)
    else if Enabled(s, es[0]) && Proper(s, es[0]) then Run(Next(s, es[0]), es[1..])
    else None
  }

  // ----- sizing ----------------------------------------------------------------------------

  /** Readings of a count that only the interrupt changes meanwhile. */
  ghost predicate Falling(seen: seq<int>, before: int, now: int) {
    && (forall i :: 0 <= i < |seen| ==> now <= seen[i] <= before)
    && (forall i, j :: 0 <= i < j < |seen| ==> seen[j] <= seen[i])
  }

  /** Readings of a head that only a flush changes meanwhile. */
  ghost predicate Dropping(seen: seq<int>, before: int, now: int) {
    && (now == before || now == 0)
    && (forall i :: 0 <= i < |seen| ==> seen[i] == before || (seen[i] == 0 && now == 0))
  }

  /** With no flush between the readings, the copy fits the room there is, whatever was sent meanwhile. */
  lemma SizeFitsRoom(left: nat, head: int, cnts: seq<int>, before: int, now: int)
    requires |cnts| == 4 && Falling(cnts, before, now) && 0 <= now <= before < SIZE
    ensures MacroChunk(left, cnts, [head, head, head, head]) <= SIZE - 1 - now
  {
  }

  /** With nothing between the readings the macro is the size meant. */
  lemma SteadySize(r: Ring, left: nat)
    requires 0 <= r.cnt && 0 <= r.head
    ensures MacroChunk(left, [r.cnt, r.cnt, r.cnt, r.cnt], [r.head, r.head, r.head, r.head]) == Chunk(r, left)
    ensures InBounds(left, r.head, r.cnt, Chunk(r, left))
  {
  }

  /** The count at which the macro starts, and what it is given, leave the interrupt no way to spoil it. */
  predicate SizeIsSafe(left: nat, head: int, cnt: int) {
    cnt == 0 || SIZE - head <= SIZE - cnt - 1 || left < SIZE - cnt - 1 || (head <= 1 && left >= SIZE - 1)
  }

  /**
   The macro stays in bounds however the interrupt falls between its readings exactly when the
   queue is empty, or the free room reaches round the page's end, or less than the room is asked for,
   or a whole page's worth is asked for and head is at its start.
   */
  lemma SizeSafeIff(left: nat, head: int, cnt: int)
    requires 0 <= cnt < SIZE && 0 <= head < SIZE
    ensures SizeIsSafe(left, head, cnt) <==>
              forall cnts, now :: |cnts| == 4 && 0 <= now <= cnt && Falling(cnts, cnt, now) ==>
                InBounds(left, head, now, MacroChunk(left, cnts, [head, head, head, head]))
  {
    if SizeIsSafe(left, head, cnt) {
      forall cnts, now | |cnts| == 4 && 0 <= now <= cnt && Falling(cnts, cnt, now)
        ensures InBounds(left, head, now, MacroChunk(left, cnts, [head, head, head, head]))
      {
        SizeFitsRoom(left, head, cnts, cnt, now);
        assert 0 <= cnts[0] <= cnt && 0 <= cnts[1] <= cnts[0] && 0 <= cnts[2] <= cnts[1] && 0 <= cnts[3] <= cnts[2];
      }
    } else {
      var cnts := [cnt, cnt, cnt, 0];
      assert Falling(cnts, cnt, 0);
      assert !InBounds(left, head, 0, MacroChunk(left, cnts, [head, head, head, head]));
    }
  }

  /** They leave a flush no way to spoil it either: less is asked for than any reading can show as room. */
  predicate SizeIsProof(left: nat, head: int, cnt: int) {
    if head == 0 then cnt == 0 || left < SIZE - cnt - 1 || left >= SIZE - 1
    else left < SIZE - head && left < SIZE - cnt - 1
  }

  lemma ProofSize(left: nat, head: int, cnt: int, cnts: seq<int>, heads: seq<int>, r: Ring)
    requires 0 <= head < SIZE && 0 <= r.cnt <= cnt < SIZE && SizeIsProof(left, head, cnt)
    requires |cnts| == 4 && Falling(cnts, cnt, r.cnt) && |heads| == 4 && Dropping(heads, head, r.head)
    ensures InBounds(left, r.head, r.cnt, MacroChunk(left, cnts, heads))
  {
    assert heads[0] == head || heads[0] == 0;
    assert heads[1] == head || heads[1] == 0;
    assert heads[2] == head || heads[2] == 0;
    assert heads[3] == head || heads[3] == 0;
    assert cnts[1] <= cnt && cnts[3] <= cnt && r.cnt <= cnts[3];
  }

  // ----- the invariant ---------------------------------------------------------------------

  ghost predicate RingOk(r: Ring) {
    && |r.page| == SIZE && 0 <= r.tail < SIZE
    && 0 <= r.cnt <= SIZE - 1 && r.head == Slot(r.tail, r.cnt)
  }

  /** What is being copied fits between head and tail, and before the end of the page. */
  ghost predicate WriterOk(w: Writer, r: Ring) {
    match w
    case Copying(src, dest, c, k) =>
      && 0 <= k <= c <= |src| && 0 < c
      && dest == r.head && r.cnt + c <= SIZE - 1 && r.head + c <= SIZE
      && forall i :: 0 <= i < k ==> At(r.page, r.head + i) == src[i]
    case Putting(_) => r.cnt < SIZE - 1
    case _ => true
  }

  ghost predicate Inv(s: State) {
    && RingOk(s.ring) && WriterOk(s.writer, s.ring)
    && s.accepted == s.gone + Queue(s.ring)
    && IsSubsequence(s.wire, s.gone) && |s.wire| + s.flushed == |s.gone|
  }

  /** A byte beyond the occupied part is none of the queue's. */
  lemma PutOutside(r: Ring, j: nat, b: byte)
    requires RingOk(r) && r.cnt + j < SIZE
    ensures Queue(r.(page := Put(r.page, Slot(r.tail, r.cnt + j), b))) == Queue(r)
  {
    assert forall i :: 0 <= i < r.cnt ==> Slot(r.tail, i) != Slot(r.tail, r.cnt + j);
  }

  lemma QueueGrows(r: Ring, r': Ring, c: nat)
    requires RingOk(r) && r.cnt + c <= SIZE - 1 && r' == r.(head := r'.head, cnt := r.cnt + c)
    ensures Queue(r') == Queue(r) + seq(c, i => At(r.page, Slot(r.tail, r.cnt + i)))
  {
  }

  lemma CopyKeeps(s: State)
    requires Inv(s) && Enabled(s, CopyByte)
    ensures Inv(Next(s, CopyByte))
  {
    var r, w := s.ring, s.writer;
    assert r.head + w.k == Slot(r.tail, r.cnt + w.k);
    PutOutside(r, w.k, At(w.src, w.k));
  }

  lemma Committed(r: Ring, src: seq<byte>, c: nat)
    requires RingOk(r) && c <= |src| && r.cnt + c <= SIZE - 1 && r.head + c <= SIZE
    requires forall i :: 0 <= i < c ==> At(r.page, r.head + i) == src[i]
    ensures var r' := r.(head := Slot(r.head, c), cnt := r.cnt + c); RingOk(r') && Queue(r') == Queue(r) + src[..c]
  {
    var r' := r.(head := Slot(r.head, c), cnt := r.cnt + c);
    QueueGrows(r, r', c);
    assert forall i :: 0 <= i < c ==> At(r.page, Slot(r.tail, r.cnt + i)) == src[i];
    assert seq(c, i => At(r.page, Slot(r.tail, r.cnt + i))) == src[..c];
  }

  lemma CommitKeeps(s: State)
    requires Inv(s) && Enabled(s, Commit)
    ensures Inv(Next(s, Commit))
  {
    var w := s.writer;
    Committed(s.ring, w.src, w.c);
    assert s.gone + Queue(s.ring) + w.src[..w.c] == s.gone + (Queue(s.ring) + w.src[..w.c]);
  }

  lemma PutKeeps(s: State)
    requires Inv(s) && Enabled(s, PutStore)
    ensures Inv(Next(s, PutStore))
  {
    var r := s.ring;
    var s' := Next(s, PutStore);
    var r1 := r.(page := s'.ring.page);
    PutOutside(r, 0, s.writer.ch);
    QueueGrows(r1, s'.ring, 1);
    assert seq(1, i => At(r1.page, Slot(r1.tail, r1.cnt + i))) == [s.writer.ch];
  }

  /** The oldest n bytes stand at tail, up to the page's end; moving tail takes them off the queue. */
  lemma ChunkSent(r: Ring, n: nat)
    requires RingOk(r) && n <= r.cnt && r.tail + n <= SIZE
    ensures r.page[r.tail..r.tail + n] == Queue(r)[..n]
    ensures var r' := r.(tail := Slot(r.tail, n), cnt := r.cnt - n); RingOk(r') && Queue(r') == Queue(r)[n..]
  {
    assert forall i :: 0 <= i < n ==> Queue(r)[i] == r.page[r.tail + i] by {
      forall i | 0 <= i < n
        ensures Queue(r)[i] == r.page[r.tail + i]
      {
        assert Slot(r.tail, i) == r.tail + i;
      }
    }
    var r' := r.(tail := Slot(r.tail, n), cnt := r.cnt - n);
    assert r'.head == Slot(r'.tail, r'.cnt);
    assert forall i :: 0 <= i < r'.cnt ==> Slot(r'.tail, i) == Slot(r.tail, i + n);
  }

  /** The interrupt moves tail and count, which only adds to the writer's room. */
  lemma WriterUnmoved(w: Writer, r: Ring)
    requires RingOk(r) && WriterOk(w, r) && r.cnt > 0
    ensures WriterOk(w, r.(tail := Slot(r.tail, 1), cnt := r.cnt - 1))
  {
  }

  lemma OneSent(accepted: seq<byte>, gone: seq<byte>, wire: seq<byte>, q: seq<byte>, b: byte, q': seq<byte>)
    requires accepted == gone + q && q == [b] + q' && IsSubsequence(wire, gone)
    ensures accepted == (gone + [b]) + q' && IsSubsequence(wire + [b], gone + [b])
  {
    SubsequenceSnoc(wire, gone, b);
  }

  lemma OneLeaves(r: Ring)
    requires RingOk(r) && r.cnt > 0
    ensures var r' := r.(tail := Slot(r.tail, 1), cnt := r.cnt - 1);
      RingOk(r') && Queue(r) == [At(r.page, r.tail)] + Queue(r')
  {
    ChunkSent(r, 1);
    assert Queue(r) == Queue(r)[..1] + Queue(r)[1..];
  }

  lemma DrainKeeps(s: State)
    requires Inv(s) && Enabled(s, Drain)
    ensures Inv(Next(s, Drain))
  {
    var r := s.ring;
    WriterUnmoved(s.writer, r);
    OneLeaves(r);
    OneSent(s.accepted, s.gone, s.wire, Queue(r), At(r.page, r.tail), Queue(Next(s, Drain).ring));
  }

  lemma SubsequenceSnoc<T>(xs: seq<T>, ys: seq<T>, y: T)
    requires IsSubsequence(xs, ys)
    ensures IsSubsequence(xs, ys + [y]) && IsSubsequence(xs + [y], ys + [y])
  {
    assert (ys + [y])[..|ys|] == ys && (xs + [y])[..|xs|] == xs;
  }

  lemma {:induction false} SubsequenceAppend<T>(xs: seq<T>, ys: seq<T>, zs: seq<T>)
    requires IsSubsequence(xs, ys)
    ensures IsSubsequence(xs, ys + zs)
    decreases |zs|
  {
    if zs == [] {
      assert ys + zs == ys;
    } else {
      SubsequenceAppend(xs, ys, zs[..|zs| - 1]);
      SubsequenceSnoc(xs, ys + zs[..|zs| - 1], zs[|zs| - 1]);
      assert ys + zs[..|zs| - 1] + [zs[|zs| - 1]] == ys + zs;
    }
  }

  lemma StepKeeps(s: State, e: Event)
    requires Inv(s) && Enabled(s, e) && Proper(s, e)
    ensures Inv(Next(s, e))
  {
    match e
    case CopyByte => CopyKeeps(s);
    case Commit => CommitKeeps(s);
    case PutStore => PutKeeps(s);
    case Drain => DrainKeeps(s);
    case Flush => SubsequenceAppend(s.wire, s.gone, Queue(s.ring));
    case _ =>
  }

  lemma {:induction false} RunKeeps(s: State, es: seq<Event>)
    requires Inv(s)
    ensures Run(s, es).Some? ==> Inv(Run(s, es).value)
    decreases |es|
  {
    if es != [] && Run(s, es).Some? {
      StepKeeps(s, es[0]);
      RunKeeps(Next(s, es[0]), es[1..]);
    }
  }

  // ----- theorems --------------------------------------------------------------------------

  /**
   The page is a FIFO queue of the bytes committed: none is lost, repeated, reordered or
   overwritten, whatever the interleaving, and every byte is sent, waiting or flushed.
   */
  lemma RingIsFifo(s: State, es: seq<Event>)
    requires Started(s) && Run(s, es).Some?
    ensures var s' := Run(s, es).value; var r := s'.ring;
      && r.head == (r.tail + r.cnt) % SIZE && 0 <= r.cnt <= SIZE - 1
      && s'.accepted == s'.gone + Queue(r)
      && IsSubsequence(s'.wire, s'.gone)
      && |s'.accepted| == |s'.wire| + r.cnt + s'.flushed
  {
    assert s.accepted == s.gone + Queue(s.ring);
    RunKeeps(s, es);
  }

  /** Without a flush, what went to the chip and what waits are together exactly what was accepted. */
  lemma NothingLostWithoutFlush(s: State, es: seq<Event>)
    requires Started(s) && Run(s, es).Some? && Run(s, es).value.flushed == 0
    ensures var s' := Run(s, es).value; s'.accepted == s'.wire + Queue(s'.ring)
  {
    RingIsFifo(s, es);
    var s' := Run(s, es).value;
    RunKeeps(s, es);
    FullSubsequence(s'.wire, s'.gone);
  }

  // ----- a size out of bounds --------------------------------------------------------------

  /** Readings and bytes sent, and if flushes is set also flushes. */
  ghost predicate OnlySizing(es: seq<Event>, flushes: bool) {
    forall e :: e in es ==> e.ReadCnt? || e.ReadHead? || e.Drain? || (flushes && e.Flush?)
  }

  /** What a sizing that began with this count and head has read. */
  ghost predicate Sized(s: State, src: seq<byte>, head: int, cnt: int) {
    && s.writer.Writing? && s.writer.src == src && 0 <= s.ring.cnt <= cnt
    && Falling(s.writer.cnts, cnt, s.ring.cnt) && Dropping(s.writer.heads, head, s.ring.head)
  }

  ghost predicate AllAre(xs: seq<int>, x: int) {
    forall i :: 0 <= i < |xs| ==> xs[i] == x
  }

  lemma SizingStep(s: State, e: Event, src: seq<byte>, head: int, cnt: int)
    requires Sized(s, src, head, cnt) && Enabled(s, e) && (e.ReadCnt? || e.ReadHead? || e.Drain? || e.Flush?)
    ensures Sized(Next(s, e), src, head, cnt)
    ensures !e.Flush? ==> Next(s, e).ring.head == s.ring.head
  {
  }

  lemma {:induction false} SizingRuns(s: State, es: seq<Event>, flushes: bool, src: seq<byte>, head: int, cnt: int)
    requires Sized(s, src, head, cnt) && OnlySizing(es, flushes) && Run(s, es).Some?
    ensures Sized(Run(s, es).value, src, head, cnt)
    ensures !flushes ==> Run(s, es).value.ring.head == s.ring.head
    ensures !flushes && AllAre(s.writer.heads, s.ring.head) ==> AllAre(Run(s, es).value.writer.heads, s.ring.head)
    decreases |es|
  {
    if es != [] {
      assert es[0] in es;
      assert forall e :: e in es[1..] ==> e in es;
      SizingStep(s, es[0], src, head, cnt);
      SizingRuns(Next(s, es[0]), es[1..], flushes, src, head, cnt);
    }
  }

  lemma {:induction false} DrainAll(s: State) returns (es: seq<Event>)
    requires s.writer.Writing? && s.ring.cnt >= 0
    ensures OnlySizing(es, false) && Run(s, es).Some?
    ensures var s' := Run(s, es).value; s'.writer == s.writer && s'.ring.cnt == 0 && s'.ring.head == s.ring.head
    decreases s.ring.cnt
  {
    if s.ring.cnt == 0 {
      es := [];
    } else {
      es := DrainAll(Next(s, Drain));
      RunStep(s, Drain, es);
      es := [Drain] + es;
    }
  }

  /** A size out of bounds: some readings and sent bytes, or also flushes, from here lead to one. */
  ghost predicate CanOverrun(s: State, flushes: bool) {
    exists es :: OnlySizing(es, flushes) && Run(s, es).Some?
                 && Enabled(Run(s, es).value, Size) && !Proper(Run(s, es).value, Size)
  }

  /** Going on with some of these can still lead to one. */
  lemma OverrunLater(s: State, es: seq<Event>, flushes: bool)
    requires OnlySizing(es, flushes) && Run(s, es).Some? && CanOverrun(Run(s, es).value, flushes)
    ensures CanOverrun(s, flushes)
  {
    var m := Run(s, es).value;
    var fs :| OnlySizing(fs, flushes) && Run(m, fs).Some?
              && Enabled(Run(m, fs).value, Size) && !Proper(Run(m, fs).value, Size);
    RunConcat(s, es, fs);
    assert OnlySizing(es + fs, flushes);
  }

  lemma OverrunNext(s: State, e: Event, flushes: bool)
    requires Enabled(s, e) && (e.ReadCnt? || e.ReadHead? || e.Drain? || (flushes && e.Flush?)) && s.writer.Writing?
    requires CanOverrun(Next(s, e), flushes)
    ensures CanOverrun(s, flushes)
  {
    RunStep(s, e, []);
    assert [e] + [] == [e];
    OverrunLater(s, [e], flushes);
  }

  /** n more readings of each kind, with nothing in between. */
  function Looked(s: State, i: nat, j: nat): State
    requires s.writer.Writing?
  {
    s.(writer := s.writer.(cnts := s.writer.cnts + Copies(s.ring.cnt, i),
                           heads := s.writer.heads + Copies(s.ring.head, j)))
  }

  function Copies(x: int, n: nat): (r: seq<int>)
    ensures |r| == n && forall i :: 0 <= i < n ==> r[i] == x
  {
    seq(n, _ => x)
  }

  lemma LookedNext(s: State, i: nat, j: nat)
    requires s.writer.Writing? && |s.writer.cnts| + i <= 4 && |s.writer.heads| + j <= 4
    ensures Looked(s, 0, 0) == s
    ensures i > 0 ==> Looked(Next(s, ReadCnt), i - 1, j) == Looked(s, i, j)
    ensures j > 0 ==> Looked(Next(s, ReadHead), i, j - 1) == Looked(s, i, j)
  {
    assert s.writer.cnts + [] == s.writer.cnts && s.writer.heads + [] == s.writer.heads;
    if i > 0 {
      assert s.writer.cnts + [s.ring.cnt] + Copies(s.ring.cnt, i - 1) == s.writer.cnts + Copies(s.ring.cnt, i);
    }
    if j > 0 {
      assert s.writer.heads + [s.ring.head] + Copies(s.ring.head, j - 1) == s.writer.heads + Copies(s.ring.head, j);
    }
  }

  lemma {:induction false} OverrunLooking(s: State, i: nat, j: nat, flushes: bool)
    requires s.writer.Writing? && |s.writer.cnts| + i <= 4 && |s.writer.heads| + j <= 4
    requires CanOverrun(Looked(s, i, j), flushes)
    ensures CanOverrun(s, flushes)
    decreases i + j
  {
    LookedNext(s, i, j);
    if i > 0 {
      OverrunLooking(Next(s, ReadCnt), i - 1, j, flushes);
      OverrunNext(s, ReadCnt, flushes);
    } else if j > 0 {
      OverrunLooking(Next(s, ReadHead), 0, j - 1, flushes);
      OverrunNext(s, ReadHead, flushes);
    }
  }

  lemma OverrunNow(s: State, flushes: bool)
    requires Enabled(s, Size) && !Proper(s, Size)
    ensures CanOverrun(s, flushes)
  {
    assert OnlySizing([], flushes) && Run(s, []) == Some(s);
  }

  /** Three readings of the count, everything sent, and the fourth. */
  lemma Overruns(s: State)
    requires Inv(s) && s.writer.Writing? && s.writer.cnts == [] && s.writer.heads == []
    requires !SizeIsSafe(|s.writer.src|, s.ring.head, s.ring.cnt)
    ensures CanOverrun(s, false)
  {
    var s1 := Looked(s, 3, 4);
    var es := DrainAll(s1);
    var s2 := Run(s1, es).value;
    var s3 := Looked(s2, 1, 0);
    OverrunNow(s3, false);
    OverrunLooking(s2, 1, 0, false);
    OverrunLater(s1, es, false);
    OverrunLooking(s, 3, 4, false);
  }

  /** Two readings of the count and three of the head, a flush, and the rest. */
  lemma FlushOverruns(s: State)
    requires Inv(s) && s.writer.Writing? && s.writer.cnts == [] && s.writer.heads == []
    requires !SizeIsProof(|s.writer.src|, s.ring.head, s.ring.cnt)
    ensures CanOverrun(s, true)
  {
    var s1 := Looked(s, 2, 3);
    var s2 := Next(s1, Flush);
    var s3 := Looked(s2, 2, 1);
    OverrunNow(s3, true);
    OverrunLooking(s2, 2, 1, true);
    OverrunNext(s1, Flush, true);
    OverrunLooking(s, 2, 3, true);
  }

  lemma SteadyHeads(heads: seq<int>, head: int)
    requires |heads| == 4 && AllAre(heads, head)
    ensures heads == [head, head, head, head]
  {
  }

  /** A sizing that starts here can go out of bounds exactly when it is not safe from the interrupt. */
  lemma OverrunIffUnsafe(s: State)
    requires Inv(s) && s.writer.Writing? && s.writer.cnts == [] && s.writer.heads == []
    ensures CanOverrun(s, false) <==> !SizeIsSafe(|s.writer.src|, s.ring.head, s.ring.cnt)
  {
    if SizeIsSafe(|s.writer.src|, s.ring.head, s.ring.cnt) {
      SizeSafeIff(|s.writer.src|, s.ring.head, s.ring.cnt);
      forall es | OnlySizing(es, false) && Run(s, es).Some? && Enabled(Run(s, es).value, Size)
        ensures Proper(Run(s, es).value, Size)
      {
        SizingRuns(s, es, false, s.writer.src, s.ring.head, s.ring.cnt);
        SteadyHeads(Run(s, es).value.writer.heads, s.ring.head);
      }
    } else {
      Overruns(s);
    }
  }

  /** With flushes too, exactly when it is not proof against them. */
  lemma OverrunIffExposed(s: State)
    requires Inv(s) && s.writer.Writing? && s.writer.cnts == [] && s.writer.heads == []
    ensures CanOverrun(s, true) <==> !SizeIsProof(|s.writer.src|, s.ring.head, s.ring.cnt)
  {
    if SizeIsProof(|s.writer.src|, s.ring.head, s.ring.cnt) {
      forall es | OnlySizing(es, true) && Run(s, es).Some? && Enabled(Run(s, es).value, Size)
        ensures Proper(Run(s, es).value, Size)
      {
        var s' := Run(s, es).value;
        SizingRuns(s, es, true, s.writer.src, s.ring.head, s.ring.cnt);
        ProofSize(|s.writer.src|, s.ring.head, s.ring.cnt, s'.writer.cnts, s'.writer.heads, s'.ring);
      }
    } else {
      FlushOverruns(s);
    }
  }

  // ----- a flush inside a copy -------------------------------------------------------------

  /** The rest of a copy. */
  function Finish(s: State): State
    requires s.writer.Copying? && s.writer.k <= s.writer.c
    decreases s.writer.c - s.writer.k
  {
    if s.writer.k < s.writer.c then Finish(Next(s, CopyByte)) else Next(s, Commit)
  }

  lemma {:induction false} FinishWrites(s: State)
    requires s.writer.Copying? && 0 <= s.writer.k <= s.writer.c <= |s.writer.src|
    requires 0 <= s.writer.dest && s.writer.dest + s.writer.c <= |s.ring.page|
    ensures var w := s.writer; var s' := Finish(s);
      && |s'.ring.page| == |s.ring.page|
      && (forall i :: 0 <= i < |s.ring.page| ==>
            s'.ring.page[i] == if w.dest + w.k <= i < w.dest + w.c then w.src[i - w.dest] else s.ring.page[i])
      && s'.ring == s.ring.(page := s'.ring.page, head := Slot(s.ring.head, w.c), cnt := s.ring.cnt + w.c)
      && s'.accepted == s.accepted + w.src[..w.c] && s'.gone == s.gone && s'.wire == s.wire
    decreases s.writer.c - s.writer.k
  {
    if s.writer.k < s.writer.c {
      FinishWrites(Next(s, CopyByte));
    }
  }

  /** The byte at i of the page when a copy that had got to w is done. */
  function Finally(w: Writer, page: seq<byte>, i: int): byte
    requires w.Copying?
  {
    if w.dest + w.k <= i < w.dest + w.c then At(w.src, i - w.dest) else At(page, i)
  }

  ghost predicate StartHolds(w: Writer, page: seq<byte>)
    requires w.Copying?
  {
    forall i :: 0 <= i < w.c ==> At(w.src, i) == Finally(w, page, i)
  }

  /**
   A flush inside a copy, after any number of its bytes, moves head to 0 while the copy goes on to
   where head was.  The queue then holds the bytes accepted exactly when the start of the page
   comes to hold them: those the rest of the copy puts there, or those that were there already.
   */
  lemma FlushInsideCopy(s: State)
    requires Inv(s) && s.writer.Copying?
    ensures var s' := Finish(Next(s, Flush));
      && |s'.accepted| == |s'.gone| + |Queue(s'.ring)|
      && (s'.accepted == s'.gone + Queue(s'.ring) <==> StartHolds(s.writer, s.ring.page))
  {
    var s' := Finish(Next(s, Flush));
    FinishedQueue(s);
    SameBytes(s'.accepted, s'.gone, Queue(s'.ring), s.writer, s.ring.page, s'.ring.page);
  }

  lemma SameBytes(accepted: seq<byte>, gone: seq<byte>, q: seq<byte>, w: Writer, page: seq<byte>, page': seq<byte>)
    requires w.Copying? && 0 <= w.c <= |w.src| && w.c <= |page'|
    requires q == page'[..w.c] && accepted == gone + w.src[..w.c]
    requires forall i :: 0 <= i < w.c ==> page'[i] == Finally(w, page, i)
    ensures |accepted| == |gone| + |q|
    ensures accepted == gone + q <==> StartHolds(w, page)
  {
    SamePrefix(gone, w.src[..w.c], q);
    SameStart(page', w.src, w.c);
    assert forall i :: 0 <= i < w.c ==> At(w.src, i) == w.src[i];
  }

  lemma FinishedQueue(s: State)
    requires Inv(s) && s.writer.Copying?
    ensures var w := s.writer; var s' := Finish(Next(s, Flush));
      && 0 <= w.c <= |w.src| && w.c <= |s'.ring.page|
      && Queue(s'.ring) == s'.ring.page[..w.c] && s'.accepted == s'.gone + w.src[..w.c]
      && forall i :: 0 <= i < w.c ==> s'.ring.page[i] == Finally(w, s.ring.page, i)
  {
    var w := s.writer;
    FinishWrites(Next(s, Flush));
    assert forall i :: 0 <= i < w.c ==> Slot(0, i) == i;
  }

  lemma SameStart<T>(a: seq<T>, b: seq<T>, c: nat)
    requires c <= |a| && c <= |b|
    ensures b[..c] == a[..c] <==> forall i :: 0 <= i < c ==> b[i] == a[i]
  {
    if a[..c] == b[..c] {
      forall i | 0 <= i < c
        ensures b[i] == a[i]
      {
        assert a[..c][i] == b[..c][i];
      }
    }
  }

  lemma SamePrefix<T>(a: seq<T>, b: seq<T>, c: seq<T>)
    ensures a + b == a + c <==> b == c
  {
    assert (a + b)[|a|..] == b && (a + c)[|a|..] == c;
  }

  /** With the queue's head at the page's start, such a flush does no harm. */
  lemma FlushAtPageStart(s: State)
    requires Inv(s) && s.writer.Copying? && s.writer.dest == 0
    ensures var s' := Finish(Next(s, Flush)); s'.accepted == s'.gone + Queue(s'.ring)
  {
    FlushInsideCopy(s);
    var w := s.writer;
    assert forall i :: 0 <= i < w.k ==> At(s.ring.page, i) == w.src[i];
  }

  /** The same moment of the same copy with other bytes in the page. */
  ghost function Refilled(s: State, page: seq<byte>): State {
    s.(ring := s.ring.(page := page), accepted := s.gone + Queue(s.ring.(page := page)))
  }

  /** And only then does it no harm whatever the page holds. */
  lemma FlushHarmlessIffAtStart(s: State)
    requires Inv(s) && s.writer.Copying?
    ensures (forall page :: Inv(Refilled(s, page)) ==>
               var s' := Finish(Next(Refilled(s, page), Flush)); s'.accepted == s'.gone + Queue(s'.ring))
            <==> s.writer.dest == 0
  {
    if s.writer.dest == 0 {
      forall page | Inv(Refilled(s, page))
        ensures var s' := Finish(Next(Refilled(s, page), Flush)); s'.accepted == s'.gone + Queue(s'.ring)
      {
        FlushAtPageStart(Refilled(s, page));
      }
    } else {
      var other: byte := if s.writer.src[0] == 0 then 1 else 0;
      var page := s.ring.page[0 := other];
      assert Inv(Refilled(s, page));
      FlushInsideCopy(Refilled(s, page));
      assert At(s.writer.src, 0) != Finally(s.writer, page, 0);
    }
  }

  /** One byte sent, then a one-byte write with a flush inside it: the chip is sent the old byte again. */
  lemma FlushInsideCopyRepeats(page: seq<byte>)
    requires |page| == SIZE
    ensures var s0 := State(Ring(page, 0, 0, 0), Idle, [], [], [], 0);
      var rest := [Drain, Begin([7])] + (SIZING + [CopyByte]);
      var es := [Begin([1])] + (SIZING + ([CopyByte, Commit] + (SIZING + rest)));
      var s9 := State(Ring(page[0 := 1][1 := 7], 1, 1, 0), Copying([7], 1, 1, 1), [1], [1], [1], 0);
      Run(s0, es) == Some(s9)
    ensures var s9 := State(Ring(page[0 := 1][1 := 7], 1, 1, 0), Copying([7], 1, 1, 1), [1], [1], [1], 0);
      var s := Next(Next(s9, Flush), Commit);
      s.accepted == [1, 7] && s.wire == [1] && s.flushed == 0 && Queue(s.ring) == [1]
  {
    SecondWrite(page[0 := 1]);
    FirstWrite(page, [Drain, Begin([7])] + (SIZING + [CopyByte]));
    var s9 := State(Ring(page[0 := 1][1 := 7], 1, 1, 0), Copying([7], 1, 1, 1), [1], [1], [1], 0);
    assert Next(s9, Flush).gone == [1] + Queue(s9.ring);
    assert [7][..1] == [7];
    assert Queue(Ring(s9.ring.page, 1, 0, 1)) == [1];
  }

  /** i readings of the count, then j of the head. */
  function Looks(i: nat, j: nat): seq<Event> {
    if i > 0 then [ReadCnt] + Looks(i - 1, j) else if j > 0 then [ReadHead] + Looks(0, j - 1) else []
  }

  const SIZING := Looks(4, 4) + [Size]

  lemma LooksUnroll(i: nat, j: nat, es: seq<Event>)
    ensures i > 0 ==> Looks(i, j) + es == [ReadCnt] + (Looks(i - 1, j) + es)
    ensures j > 0 ==> Looks(0, j) + es == [ReadHead] + (Looks(0, j - 1) + es)
    ensures Looks(0, 0) + es == es
  {
  }

  lemma {:induction false} LooksRun(s: State, i: nat, j: nat, es: seq<Event>)
    requires s.writer.Writing? && |s.writer.cnts| + i <= 4 && |s.writer.heads| + j <= 4
    ensures Run(s, Looks(i, j) + es) == Run(Looked(s, i, j), es)
    decreases i + j
  {
    LookedNext(s, i, j);
    LooksUnroll(i, j, es);
    if i > 0 {
      RunStep(s, ReadCnt, Looks(i - 1, j) + es);
      LooksRun(Next(s, ReadCnt), i - 1, j, es);
    } else if j > 0 {
      RunStep(s, ReadHead, Looks(0, j - 1) + es);
      LooksRun(Next(s, ReadHead), 0, j - 1, es);
    }
  }

  /** Where a sizing with nothing in between leads. */
  function Sizing(s: State): State
    requires s.writer.Writing?
  {
    var c := Chunk(s.ring, |s.writer.src|);
    s.(writer := if c <= 0 then Idle else Copying(s.writer.src, s.ring.head, c, 0))
  }

  lemma SizeLooked(s: State)
    requires s.writer.Writing? && s.writer.cnts == [] && s.writer.heads == [] && s.ring.cnt >= 0 && s.ring.head >= 0
    ensures var l := Looked(s, 4, 4); Enabled(l, Size) && Proper(l, Size) && Next(l, Size) == Sizing(s)
  {
    var n, h, w := s.ring.cnt, s.ring.head, Looked(s, 4, 4).writer;
    SteadySize(s.ring, |s.writer.src|);
    assert w.cnts == [n, n, n, n] && w.heads == [h, h, h, h];
  }

  lemma SizeRun(s: State, es: seq<Event>)
    requires s.writer.Writing? && s.writer.cnts == [] && s.writer.heads == [] && s.ring.cnt >= 0 && s.ring.head >= 0
    ensures Run(s, SIZING + es) == Run(Sizing(s), es)
  {
    assert SIZING + es == Looks(4, 4) + ([Size] + es);
    LooksRun(s, 4, 4, [Size] + es);
    SizeLooked(s);
    RunStep(Looked(s, 4, 4), Size, es);
  }

  lemma SecondWrite(p1: seq<byte>)
    requires |p1| == SIZE && p1[0] == 1
    ensures Run(State(Ring(p1, 1, 0, 1), Idle, [1], [], [], 0), [Drain, Begin([7])] + (SIZING + [CopyByte]))
         == Some(State(Ring(p1[1 := 7], 1, 1, 0), Copying([7], 1, 1, 1), [1], [1], [1], 0))
  {
    var s1 := State(Ring(p1, 1, 1, 0), Idle, [1], [1], [1], 0);
    var s2 := s1.(writer := Writing([7], [], []));
    assert [CopyByte] + [] == [CopyByte];
    RunStep(s1.(writer := Copying([7], 1, 1, 0)), CopyByte, []);
    SizeRun(s2, [CopyByte]);
    RunStep(s1, Begin([7]), SIZING + [CopyByte]);
    assert Next(State(Ring(p1, 1, 0, 1), Idle, [1], [], [], 0), Drain) == s1;
    RunStep(State(Ring(p1, 1, 0, 1), Idle, [1], [], [], 0), Drain, [Begin([7])] + (SIZING + [CopyByte]));
    assert [Drain] + ([Begin([7])] + (SIZING + [CopyByte])) == [Drain, Begin([7])] + (SIZING + [CopyByte]);
  }

  lemma FirstWrite(page: seq<byte>, es: seq<Event>)
    requires |page| == SIZE
    ensures Run(State(Ring(page, 0, 0, 0), Idle, [], [], [], 0),
                [Begin([1])] + (SIZING + ([CopyByte, Commit] + (SIZING + es))))
         == Run(State(Ring(page[0 := 1], 1, 0, 1), Idle, [1], [], [], 0), es)
  {
    var s0 := State(Ring(page, 0, 0, 0), Idle, [], [], [], 0);
    var s3 := State(Ring(page[0 := 1], 0, 0, 0), Copying([1], 0, 1, 1), [], [], [], 0);
    var s4 := State(Ring(page[0 := 1], 1, 0, 1), Writing([], [], []), [1], [], [], 0);
    SizeRun(s4, es);
    assert [1][..1] == [1] && [1][1..] == [] && [] + [1] == [1];
    assert Next(s3, Commit) == s4;
    RunStep(s3, Commit, SIZING + es);
    RunStep(s0.(writer := Copying([1], 0, 1, 0)), CopyByte, [Commit] + (SIZING + es));
    assert [CopyByte] + ([Commit] + (SIZING + es)) == [CopyByte, Commit] + (SIZING + es);
    SizeRun(s0.(writer := Writing([1], [], [])), [CopyByte, Commit] + (SIZING + es));
    RunStep(s0, Begin([1]), SIZING + ([CopyByte, Commit] + (SIZING + es)));
  }

  lemma RunStep(s: State, e: Event, es: seq<Event>)
    requires Enabled(s, e) && Proper(s, e)
    ensures Run(s, [e] + es) == Run(Next(s, e), es)
  {
    assert ([e] + es)[1..] == es;
  }

  lemma {:induction false} RunConcat(s: State, es: seq<Event>, fs: seq<Event>)
    ensures Run(s, es).Some? ==> Run(s, es + fs) == Run(Run(s, es).value, fs)
    decreases |es|
  {
    if es == [] {
      assert es + fs == fs;
    } else {
      assert (es + fs)[0] == es[0] && (es + fs)[1..] == es[1..] + fs;
      if Run(s, es).Some? {
        RunConcat(Next(s, es[0]), es[1..], fs);
      }
    }
  }

  lemma {:induction false} SubsequenceLength<T>(xs: seq<T>, ys: seq<T>)
    requires IsSubsequence(xs, ys)
    ensures |xs| <= |ys|
    decreases |ys|
  {
    if xs != [] {
      if xs[|xs| - 1] == ys[|ys| - 1] && IsSubsequence(xs[..|xs| - 1], ys[..|ys| - 1]) {
        SubsequenceLength(xs[..|xs| - 1], ys[..|ys| - 1]);
      } else {
        SubsequenceLength(xs, ys[..|ys| - 1]);
      }
    }
  }

  lemma {:induction false} FullSubsequence<T>(xs: seq<T>, ys: seq<T>)
    requires IsSubsequence(xs, ys) && |xs| == |ys|
    ensures xs == ys
    decreases |ys|
  {
    if xs != [] {
      if xs[|xs| - 1] == ys[|ys| - 1] && IsSubsequence(xs[..|xs| - 1], ys[..|ys| - 1]) {
        FullSubsequence(xs[..|xs| - 1], ys[..|ys| - 1]);
      } else {
        SubsequenceLength(xs, ys[..|ys| - 1]);
      }
    }
  }
}
