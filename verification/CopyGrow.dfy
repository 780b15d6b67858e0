/**
 Copy-on-grow of a suspended coroutine's stack (coro.c:1567-1645): the live words
 are copied to the top of a bigger stack and every word that points into the old
 one is shifted.

 Stack bounds and the saved stack pointer are 8-byte aligned; they, and the words
 of memory, are numbered in words.  The values words hold are byte addresses.
 */
module CopyGrow {
  import opened Options

  const WORD: int := 8

  type Words = map<int, int>

  /** The old stack [lo, hi), the saved stack pointer, the new stack [newLo, newHi). */
  datatype Move = Move(lo: int, hi: int, sp: int, newLo: int, newHi: int)

  function Delta(m: Move): int { m.newHi - m.hi }

  predicate InOld(m: Move, k: int) { m.lo <= k < m.hi }

  /** The byte address v points into the old stack. */
  predicate PointsIn(m: Move, v: int) { WORD * m.lo <= v < WORD * m.hi }

  /** A word of the live region. */
  predicate Live(m: Move, k: int) { m.sp <= k < m.hi }

  /** What becomes of a value, and of a word's number. */
  function Reloc(m: Move, v: int): int { if PointsIn(m, v) then v + WORD * Delta(m) else v }
  function Moved(m: Move, k: int): int { if InOld(m, k) then k + Delta(m) else k }

  /** The stacks are apart, the new one fresh and bigger, the live words there. */
  ghost predicate Proper(m: Move, w: Words) {
    && m.lo < m.hi && m.lo <= m.sp <= m.hi && m.newHi - m.newLo > m.hi - m.lo && (m.newHi <= m.lo || m.hi <= m.newLo)
    && (forall k | Live(m, k) :: k in w)
    && (forall k | k in w :: !(m.newLo <= k < m.newHi))
  }

  /** What memory is after the move. */
  ghost predicate Grown(m: Move, w: Words, w': Words) {
    && (forall k | Live(m, k) && k in w :: k + Delta(m) in w' && w'[k + Delta(m)] == Reloc(m, w[k]))
    && (forall k | k in w && !InOld(m, k) :: k in w' && w'[k] == w[k])
    && (forall k | k in w' :: !InOld(m, k) && !(m.newLo <= k < m.sp + Delta(m)))
  }

  /** A suspended coroutine and the memory around it. */
  class Coro {
    var words: Words
    var stack: int
    var stackSize: int
    var sp: int
    var grown: bool

    constructor (words: Words, stack: int, stackSize: int, sp: int)
      ensures this.words == words && this.stack == stack && this.stackSize == stackSize && this.sp == sp && !grown
    {
      this.words, this.stack, this.stackSize, this.sp, grown := words, stack, stackSize, sp, false;
    }

    /** `runloom_coro_grow`, for a page-rounded size; `mapped` is the base of the
        new mapping, if the system gave one. */
    method Grow(newUsable: int, mapped: Option<int>) returns (rc: int)
      requires mapped.Some? && newUsable > stackSize && stack <= sp <= stack + stackSize ==>
                 Proper(Move(stack, stack + stackSize, sp, mapped.value, mapped.value + newUsable), words)
      modifies this
      ensures newUsable <= old(stackSize) ==> rc == 0
      ensures newUsable > old(stackSize) ==> rc == if old(stack <= sp <= stack + stackSize) && mapped.Some? then 0 else -1
      ensures rc == 0 && newUsable > old(stackSize) ==>
                var m := old(Move(stack, stack + stackSize, sp, mapped.value, mapped.value + newUsable));
                && Grown(m, old(words), words) && stack == m.newLo && stackSize == newUsable && grown
                && sp == old(sp) + Delta(m) && stack <= sp <= stack + stackSize
      ensures rc != 0 || newUsable <= old(stackSize) ==>
                words == old(words) && stack == old(stack) && stackSize == old(stackSize) && sp == old(sp) && grown == old(grown)
    {
      if newUsable <= stackSize { return 0; }
      if sp < stack || sp > stack + stackSize || mapped.None? { return -1; }
      var m := Move(stack, stack + stackSize, sp, mapped.value, mapped.value + newUsable);
      var copied := CopyLive(m, words);
      var rebased := Rebase(m, words, copied);
      words := map k | k in rebased && !InOld(m, k) :: rebased[k];
      sp := sp + Delta(m);
      stack, stackSize, grown := mapped.value, newUsable, true;
      return 0;
    }
  }

  /** The copy of the live region to the same distance from the top. */
  method CopyLive(m: Move, w: Words) returns (w': Words)
    requires Proper(m, w)
    ensures forall k | Live(m, k) :: k + Delta(m) in w' && w'[k + Delta(m)] == w[k]
    ensures forall k | k in w :: k in w' && w'[k] == w[k]
    ensures forall k | k in w' :: !(m.newLo <= k < m.sp + Delta(m))
  {
    w' := w;
    var k, d := m.sp, Delta(m);
    while k < m.hi
      invariant m.sp <= k <= m.hi && d == Delta(m)
      invariant forall j | Live(m, j) && j < k :: j + d in w' && w'[j + d] == w[j]
      invariant forall j | j in w :: j in w' && w'[j] == w[j]
      invariant forall j | j in w' :: !(m.newLo <= j < m.sp + d)
    {
      assert Live(m, k) && k + d !in w;
      w' := w'[k + d := w[k]];
      k := k + 1;
    }
  }

  /** The walk over the copied words. */
  method Rebase(m: Move, w: Words, copied: Words) returns (w': Words)
    requires Proper(m, w)
    requires forall k | Live(m, k) :: k + Delta(m) in copied && copied[k + Delta(m)] == w[k]
    requires forall k | k in w :: k in copied && copied[k] == w[k]
    ensures forall k | Live(m, k) :: k + Delta(m) in w' && w'[k + Delta(m)] == Reloc(m, w[k])
    ensures forall k | k in w :: k in w' && w'[k] == w[k]
    ensures w'.Keys == copied.Keys
  {
    w' := copied;
    var p, d := m.sp + Delta(m), Delta(m);
    while p < m.newHi
      invariant m.sp + d <= p <= m.newHi && d == Delta(m)
      invariant forall j | Live(m, j) :: j + d in w' && w'[j + d] == if j + d < p then Reloc(m, w[j]) else w[j]
      invariant forall j | j in w :: j in w' && w'[j] == w[j]
      invariant w'.Keys == copied.Keys
    {
      assert Live(m, p - d) && p !in w;
      var v := w'[p];
      if WORD * m.lo <= v < WORD * m.hi { w' := w'[p := v + WORD * d]; }
      p := p + 1;
    }
  }

  // --------------------------------------------------- the stack as a graph

  /** One load of a chain: add an offset to the value at hand, which gives the
      address of this word. */
  datatype Load = Load(offset: int, word: int)

  /** Follow a chain of loads from v; none if a load misses. */
  function Follow(w: Words, v: int, loads: seq<Load>): Option<int>
    decreases |loads|
  {
    if loads == [] then Some(v)
    else if v + loads[0].offset == WORD * loads[0].word && loads[0].word in w then Follow(w, w[loads[0].word], loads[1..])
    else None
  }

  /** Each load of the chain is of a live word, through a pointer into the stack. */
  predicate StaysLive(m: Move, w: Words, v: int, loads: seq<Load>)
    decreases |loads|
  {
    loads == []
    || (PointsIn(m, v) && Live(m, loads[0].word) && loads[0].word in w && v + loads[0].offset == WORD * loads[0].word
        && StaysLive(m, w, w[loads[0].word], loads[1..]))
  }

  /** The words that stay: the live ones and everything outside the old stack. */
  predicate Kept(m: Move, w: Words, k: int) { k in w && (Live(m, k) || !InOld(m, k)) }

  /** The same loads, of the same words where they are after the move. */
  function MovedLoads(m: Move, loads: seq<Load>): (r: seq<Load>)
    ensures |r| == |loads|
  {
    if loads == [] then [] else [Load(loads[0].offset, Moved(m, loads[0].word))] + MovedLoads(m, loads[1..])
  }

  lemma MovedTail(m: Move, loads: seq<Load>)
    requires loads != []
    ensures MovedLoads(m, loads)[0] == Load(loads[0].offset, Moved(m, loads[0].word))
    ensures MovedLoads(m, loads)[1..] == MovedLoads(m, loads[1..])
  {
  }

  /** The chain ends after the move at the value it ended at before, relocated. */
  predicate Survives(m: Move, w: Words, w': Words, v: int, loads: seq<Load>) {
    && Follow(w, v, loads).Some?
    && Follow(w', Reloc(m, v), MovedLoads(m, loads)) == Some(Reloc(m, Follow(w, v, loads).value))
  }

  /** Any chain of loads that stays live survives. */
  lemma {:induction false} ChainsPreserved(m: Move, w: Words, w': Words, v: int, loads: seq<Load>)
    requires Proper(m, w) && Grown(m, w, w') && StaysLive(m, w, v, loads)
    ensures Survives(m, w, w', v, loads)
    decreases |loads|
  {
    if loads == [] {
    } else {
      ChainsPreserved(m, w, w', w[loads[0].word], loads[1..]);
      MovedTail(m, loads);
    }
  }

  /** Each load of the chain is of a word that stays, and goes through a pointer
      into the stack exactly if its word is in the stack. */
  predicate Sound(m: Move, w: Words, v: int, loads: seq<Load>)
    decreases |loads|
  {
    loads == []
    || (Kept(m, w, loads[0].word) && v + loads[0].offset == WORD * loads[0].word
        && (PointsIn(m, v) <==> InOld(m, loads[0].word)) && Sound(m, w, w[loads[0].word], loads[1..]))
  }

  /** No word outside the stack points into it. */
  ghost predicate NoneIn(m: Move, w: Words) {
    forall k | k in w && !InOld(m, k) :: !PointsIn(m, w[k])
  }

  lemma DeltaMoves(m: Move, w: Words)
    requires Proper(m, w)
    ensures Delta(m) != 0
  {
  }

  /** One load goes to the moved word exactly if it is sound. */
  lemma LoadMoves(m: Move, w: Words, w': Words, v: int, ld: Load)
    requires Proper(m, w) && Grown(m, w, w') && v + ld.offset == WORD * ld.word && ld.word in w
    ensures Reloc(m, v) + ld.offset == WORD * Moved(m, ld.word) && Moved(m, ld.word) in w' <==>
              Kept(m, w, ld.word) && (PointsIn(m, v) <==> InOld(m, ld.word))
  {
    DeltaMoves(m, w);
  }

  /** When nothing outside points in, a chain of any length through any of memory
      survives exactly if it is sound. */
  lemma {:induction false} SurvivesIffSound(m: Move, w: Words, w': Words, v: int, loads: seq<Load>)
    requires Proper(m, w) && Grown(m, w, w') && NoneIn(m, w) && Follow(w, v, loads).Some?
    ensures Survives(m, w, w', v, loads) <==> Sound(m, w, v, loads)
    decreases |loads|
  {
    if loads == [] {
    } else {
      var k := loads[0].word;
      LoadMoves(m, w, w', v, loads[0]);
      MovedTail(m, loads);
      if Kept(m, w, k) && (PointsIn(m, v) <==> InOld(m, k)) {
        assert w'[Moved(m, k)] == Reloc(m, w[k]);
        SurvivesIffSound(m, w, w', w[k], loads[1..]);
      }
    }
  }

  /** All sound chains survive, so the memory they reach is the same graph, if and
      only if no word outside the stack points into it. */
  lemma SameGraphIff(m: Move, w: Words, w': Words)
    requires Proper(m, w) && Grown(m, w, w')
    ensures (forall v, loads | Sound(m, w, v, loads) :: Survives(m, w, w', v, loads)) <==> NoneIn(m, w)
  {
    if NoneIn(m, w) {
      forall v, loads | Sound(m, w, v, loads) ensures Survives(m, w, w', v, loads) {
        SoundFollows(m, w, v, loads);
        SurvivesIffSound(m, w, w', v, loads);
      }
    } else {
      var k :| k in w && !InOld(m, k) && PointsIn(m, w[k]);
      OutsideWordStale(m, w, w', k);
    }
  }

  lemma {:induction false} SoundFollows(m: Move, w: Words, v: int, loads: seq<Load>)
    requires Sound(m, w, v, loads)
    ensures Follow(w, v, loads).Some?
    decreases |loads|
  {
    if loads == [] {
    } else {
      SoundFollows(m, w, w[loads[0].word], loads[1..]);
    }
  }

  lemma FollowHit(w: Words, v: int, loads: seq<Load>)
    requires loads != [] && v + loads[0].offset == WORD * loads[0].word && loads[0].word in w
    ensures Follow(w, v, loads) == Follow(w, w[loads[0].word], loads[1..])
    ensures |loads| == 1 ==> Follow(w, v, loads) == Some(w[loads[0].word])
  {
  }

  /** A word outside the stack that points into it still holds the old address. */
  lemma OutsideWordStale(m: Move, w: Words, w': Words, k: int)
    requires Proper(m, w) && Grown(m, w, w') && k in w && !InOld(m, k) && PointsIn(m, w[k])
    ensures Sound(m, w, WORD * k, [Load(0, k)]) && !Survives(m, w, w', WORD * k, [Load(0, k)])
  {
    DeltaMoves(m, w);
    var loads := [Load(0, k)];
    MovedTail(m, loads);
    FollowHit(w, WORD * k, loads);
    FollowHit(w', WORD * k, MovedLoads(m, loads));
  }

  /** A live word that holds the address just past the end of the stack: the load
      below it is lost, although nothing outside points in. */
  lemma EndPointerLost(m: Move, w: Words, w': Words)
    requires Proper(m, w) && Grown(m, w, w') && Live(m, m.sp) && w[m.sp] == WORD * m.hi
    ensures var loads := [Load(0, m.sp), Load(-WORD, m.hi - 1)];
            && Follow(w, WORD * m.sp, loads) == Some(w[m.hi - 1])
            && Follow(w', WORD * (m.sp + Delta(m)), MovedLoads(m, loads)).None?
  {
    var first, last := Load(0, m.sp), Load(-WORD, m.hi - 1);
    var loads := [first, last];
    assert loads[1..] == [last];
    FollowHit(w, WORD * m.sp, loads);
    FollowHit(w, w[m.sp], [last]);
    MovedTail(m, loads);
    MovedTail(m, [last]);
    FollowHit(w', WORD * (m.sp + Delta(m)), MovedLoads(m, loads));
    LoadMoves(m, w, w', w[m.sp], last);
  }
}
