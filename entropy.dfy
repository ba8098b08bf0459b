/** The entropy source (`*rand.Rand`). Go's generator algorithm is not modelled: a source is an
    abstract stream of draws, and every call on it (`Intn`, `Int31n`, `Int63`, `Float64`)
    consumes exactly one draw. */
module Entropy {
  import opened Wrappers

  /** What a generator returns together with the number of draws taken so far. */
  datatype Step<T> = Step(res: Result<T>, next: nat)

  /** The draws of one deterministic source, indexed from 0. */
  type Stream = nat -> nat

  const TwoTo53: nat := 0x20_0000_0000_0000
  const TwoTo63: nat := 0x8000_0000_0000_0000

  /** `Int63()` on draw `d`. */
  function Int63Of(d: nat): (v: nat)
    ensures v < TwoTo63
  {
    d % TwoTo63
  }

  /** `Float64()` on draw `d`: a value in [0, 1) on the 2^-53 grid. */
  function UnitOf(d: nat): (x: real)
    ensures 0.0 <= x < 1.0
  {
    (d % TwoTo53) as real / TwoTo53 as real
  }

  /** `x >> (6 * j)` for a non-negative `x`. */
  function Shift(x: nat, j: nat): nat
  {
    if j == 0 then x else Shift(x, j - 1) / 64
  }

  /** Chunk `index` (from the low bits up) of draw `draw`; `randString` uses ten 6-bit chunks
      of each `Int63` draw. */
  datatype ChunkPos = ChunkPos(draw: nat, index: nat)
  {
    predicate Valid() { index < 10 }

    /** The global number of the chunk. */
    function Global(): nat { 10 * draw + index }

    /** The chunk read after this one. */
    function Advance(): (c: ChunkPos)
      requires Valid()
      ensures c.Valid() && c.Global() == Global() + 1
    {
      if index == 9 then ChunkPos(draw + 1, 0) else ChunkPos(draw, index + 1)
    }
  }

  /** Two chunk positions with the same global number are the same. */
  lemma GlobalInjective(a: ChunkPos, b: ChunkPos)
    requires a.Valid() && b.Valid()
    ensures a.Global() == b.Global() ==> a == b
  {
  }

  function Chunk(s: Stream, c: ChunkPos): (v: nat)
    ensures v < 64
  {
    Shift(Int63Of(s(c.draw)), c.index) % 64
  }

  /** A chunk that indexes one of the 62 letters. */
  predicate Usable(s: Stream, c: ChunkPos) { c.Valid() && Chunk(s, c) < 62 }

  ghost predicate UsableFrom(s: Stream, c: ChunkPos) {
    exists h: ChunkPos {:trigger Usable(s, h)} :: c.Global() <= h.Global() && Usable(s, h)
  }

  /** Every chunk position is followed by a usable chunk. On any other stream Go's
      `randString` never returns; every source here is assumed productive. */
  ghost predicate Productive(s: Stream) { forall c: ChunkPos :: UsableFrom(s, c) }

  /** `h` is the first usable chunk whose global number is at least `g`. */
  ghost predicate FirstUsable(s: Stream, g: nat, h: ChunkPos) {
    g <= h.Global() && Usable(s, h) &&
    forall e: ChunkPos {:trigger Usable(s, e)} :: g <= e.Global() < h.Global() ==> !Usable(s, e)
  }

  /** The first usable chunk at or after `c`. */
  ghost function NextUsable(s: Stream, c: ChunkPos): (h: ChunkPos)
    requires Productive(s)
    ensures FirstUsable(s, c.Global(), h)
  {
    assert UsableFrom(s, c);
    var h0: ChunkPos :| c.Global() <= h0.Global() && Usable(s, h0);
    LeastUsable(s, c.Global(), h0);
    var h: ChunkPos :| FirstUsable(s, c.Global(), h);
    h
  }

  lemma {:induction false} LeastUsable(s: Stream, g: nat, h0: ChunkPos)
    requires g <= h0.Global() && Usable(s, h0)
    ensures exists h: ChunkPos :: FirstUsable(s, g, h)
    decreases h0.Global() - g
  {
    var c := ChunkPos(g / 10, g % 10);
    if !Usable(s, c) {
      LeastUsable(s, g + 1, h0);
      var h: ChunkPos :| FirstUsable(s, g + 1, h);
      forall e: ChunkPos | g <= e.Global() < h.Global()
        ensures !Usable(s, e)
      {
        if e.Valid() {
          GlobalInjective(e, c);
        }
      }
      assert FirstUsable(s, g, h);
    } else {
      assert FirstUsable(s, g, c);
    }
  }

  /** Skipping an unusable chunk does not move the next usable one. */
  lemma NextUsableSkip(s: Stream, c: ChunkPos)
    requires Productive(s) && c.Valid() && !Usable(s, c)
    ensures NextUsable(s, c.Advance()).Global() == NextUsable(s, c).Global()
  {
    var a, b := NextUsable(s, c), NextUsable(s, c.Advance());
    GlobalInjective(a, c);
  }

  /** A source seeded by `rand.NewSource(seed)`: the stream of draws and how many were taken. */
  class Rand {
    const stream: Stream
    var pos: nat

    ghost predicate Valid() { Productive(stream) }

    constructor (s: Stream)
      requires Productive(s)
      ensures stream == s && pos == 0 && Valid()
    {
      stream := s;
      pos := 0;
    }

    /** `Intn(n)` and `Int31n(n)`; Go panics when `n <= 0`, so callers check first. */
    method Intn(n: int) returns (v: int)
      requires n > 0
      modifies this
      ensures v == stream(old(pos)) % n && 0 <= v < n
      ensures pos == old(pos) + 1
    {
      v := stream(pos) % n;
      pos := pos + 1;
    }

    method Int63() returns (v: nat)
      modifies this
      ensures v == Int63Of(stream(old(pos)))
      ensures pos == old(pos) + 1
    {
      v := Int63Of(stream(pos));
      pos := pos + 1;
    }

    method Float64() returns (x: real)
      modifies this
      ensures x == UnitOf(stream(old(pos)))
      ensures pos == old(pos) + 1
    {
      x := UnitOf(stream(pos));
      pos := pos + 1;
    }
  }
}
