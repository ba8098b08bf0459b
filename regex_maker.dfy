/** The regex string synthesizer: a recursive generator over the operator tree that Go's
    `regexp/syntax` parser (followed by `Simplify`) produces, the language of that tree, and
    `fillRegexSimple`, which stores a generated string in a field. */
module RegexMaker {
  import opened Wrappers
  import opened Kinds
  import opened Strings
  import opened Strconv
  import opened Entropy
  import opened RandomMaker

  /** A `*syntax.Regexp` after `Simplify`: its `Op`, with `Sub`, `Rune`, `Min` and `Max` where
      the op uses them. `runes` of a char class are inclusive pairs `lo, hi`. */
  datatype Regex =
    | NoMatch
    | EmptyMatch
    | Literal(runes: seq<int>)
    | CharClass(runes: seq<int>)
    | AnyCharNotNL
    | AnyChar
    | BeginLine
    | EndLine
    | BeginText
    | EndText
    | WordBoundary
    | NoWordBoundary
    | Capture(sub: Regex)
    | Star(sub: Regex)
    | Plus(sub: Regex)
    | Quest(sub: Regex)
    | Repeat(sub: Regex, min: int, max: int)
    | Concat(subs: seq<Regex>)
    | Alternate(subs: seq<Regex>)
  {
    predicate Repetition() { Star? || Plus? || Quest? || Repeat? }

    /** The ops that match the empty string without consuming input. */
    predicate ZeroWidth()
    {
      EmptyMatch? || BeginLine? || EndLine? || BeginText? || EndText? || WordBoundary? || NoWordBoundary?
    }
  }

  // ---- Runes ----

  predicate IsScalar(x: int) { 0 <= x < 0xD800 || 0xE000 <= x <= 0x10FFFF }

  /** Go's `string(rune)`: a value that is not a Unicode scalar value becomes U+FFFD. */
  function RuneChar(x: int): (c: char)
    ensures IsScalar(x) ==> c as int == x
    ensures !IsScalar(x) ==> c == '\U{FFFD}'
  {
    if IsScalar(x) then x as char else '\U{FFFD}'
  }

  /** Go's `string([]rune)`. */
  function RuneString(runes: seq<int>): (w: string)
    ensures |w| == |runes|
    ensures forall i :: 0 <= i < |runes| ==> w[i] == RuneChar(runes[i])
  {
    seq(|runes|, i requires 0 <= i < |runes| => RuneChar(runes[i]))
  }

  /** `x` lies in the `j`-th pair of a char class. */
  predicate InPair(runes: seq<int>, j: int, x: int)
  {
    0 <= j && 2 * j + 1 < |runes| && runes[2 * j] <= x <= runes[2 * j + 1]
  }

  /** `x` lies in one of the pairs of a char class. */
  ghost predicate InClass(runes: seq<int>, x: int)
  {
    exists j :: InPair(runes, j, x)
  }

  // ---- The language of a tree ----

  /** The bounds on the number of copies of a repetition in the language; a negative maximum
      is unbounded. */
  function LangBounds(t: Regex): (int, int)
    requires t.Repetition()
  {
    match t
    case Star(_) => (0, -1)
    case Plus(_) => (1, -1)
    case Quest(_) => (0, 1)
    case Repeat(_, min, max) => (min, max)
  }

  /** The strings the tree matches. The zero-width assertions are read as matching the empty
      string (what they demand of the surrounding text is not modelled). */
  ghost predicate Matches(t: Regex, w: string)
    decreases t, 1
  {
    match t
    case NoMatch => false
    case EmptyMatch => w == []
    case BeginLine => w == []
    case EndLine => w == []
    case BeginText => w == []
    case EndText => w == []
    case WordBoundary => w == []
    case NoWordBoundary => w == []
    case Literal(runes) => |w| == |runes| && forall i :: 0 <= i < |w| ==> w[i] as int == runes[i]
    case CharClass(runes) => |w| == 1 && InClass(runes, w[0] as int)
    case AnyCharNotNL => |w| == 1 && w[0] != '\n'
    case AnyChar => |w| == 1
    case Capture(sub) => Matches(sub, w)
    case Concat(subs) => MatchesFrom(t, 0, w)
    case Alternate(subs) => exists i :: 0 <= i < |subs| && Matches(subs[i], w)
    case _ =>
      var (lo, hi) := LangBounds(t);
      exists n: nat :: lo <= n && (hi < 0 || n <= hi) && Power(t.sub, w, n)
  }

  /** `w` is `n` consecutive matches of `sub`. */
  ghost predicate Power(sub: Regex, w: string, n: nat)
    decreases sub, 2, n
  {
    if n == 0 then w == []
    else exists k :: 0 <= k <= |w| && Matches(sub, w[..k]) && Power(sub, w[k..], n - 1)
  }

  /** `w` is a match of each of the concatenation's subexpressions from the `i`-th on. */
  ghost predicate MatchesFrom(t: Regex, i: nat, w: string)
    requires t.Concat? && i <= |t.subs|
    decreases t, 0, |t.subs| - i
  {
    if i == |t.subs| then w == []
    else exists k :: 0 <= k <= |w| && Matches(t.subs[i], w[..k]) && MatchesFrom(t, i + 1, w[k..])
  }

  /** A char class pair the generator can draw from and whose draws, after `string(rune)`,
      stay in the class: when the pair reaches into the surrogates, the class holds U+FFFD. */
  ghost predicate GoodPair(runes: seq<int>, j: int)
  {
    0 <= j && 2 * j + 1 < |runes| &&
    var lo, hi := runes[2 * j], runes[2 * j + 1];
    0 <= lo <= hi <= 0x10FFFF && (lo <= 0xDFFF && 0xD800 <= hi ==> InClass(runes, 0xFFFD))
  }

  /** The trees the generator is meant for: only the ops it handles, non-empty char classes
      made of good pairs, literal runes that are scalar values, non-empty alternations and
      repeat bounds with `0 <= min <= max`. */
  ghost predicate WellFormed(t: Regex)
  {
    match t
    case NoMatch => false
    case Literal(runes) => forall i :: 0 <= i < |runes| ==> IsScalar(runes[i])
    case CharClass(runes) => |runes| >= 2 && forall j :: 0 <= j < |runes| / 2 ==> GoodPair(runes, j)
    case Capture(sub) => WellFormed(sub)
    case Star(sub) => WellFormed(sub)
    case Plus(sub) => WellFormed(sub)
    case Quest(sub) => WellFormed(sub)
    case Repeat(sub, min, max) => 0 <= min <= max && WellFormed(sub)
    case Concat(subs) => forall i :: 0 <= i < |subs| ==> WellFormed(subs[i])
    case Alternate(subs) => |subs| > 0 && forall i :: 0 <= i < |subs| ==> WellFormed(subs[i])
    case _ => true
  }

  // ---- The generator ----

  /** The error every failure inside a concatenation is replaced by. */
  const GenerationFailed: string := "generator failed"

  /** The error of an op the generator does not handle; `NoMatch` is the one such op left after
      `Simplify`. */
  const NoMatchFailed: string := "op didnt match NoMatch"

  /** The errors a generator can return. */
  predicate GenError(r: Result<string>)
  {
    r.Err? ==> r.msg == GenerationFailed || r.msg == NoMatchFailed
  }

  /** `generate(r, t)` with `pos` draws taken: the string or the failure, and the draws taken
      after it. The error is one of the two the generators create. */
  ghost function Gen(s: Stream, t: Regex, pos: nat): (r: Step<string>)
    requires Productive(s)
    ensures pos <= r.next && GenError(r.res)
    decreases t, 2
  {
    match t
    case Star(sub) => GenRepeat(s, sub, 0, 10, pos)
    case Plus(sub) => GenRepeat(s, sub, 1, 10, pos)
    case Quest(sub) => GenRepeat(s, sub, 0, 1, pos)
    case Repeat(sub, min, max) => GenRepeat(s, sub, min, max, pos)
    case Alternate(_) => GenAlternate(s, t, 0, pos, [])
    case CharClass(runes) => GenCharClass(s, runes, pos)
    case Capture(sub) => Gen(s, sub, pos)
    case AnyChar => var b := RandStringSpec(s, pos, 1); Step(Ok(b.0), b.1)
    case AnyCharNotNL => var b := RandStringSpec(s, pos, 1); Step(Ok(b.0), b.1)
    case Literal(runes) => Step(Ok(RuneString(runes)), pos)
    case Concat(_) => GenConcat(s, t, 0, pos, [])
    case NoMatch => Step(Err(NoMatchFailed), pos)
    case _ => Step(Ok([]), pos)
  }

  /** `repeatingGenerator(r, sub, min, max)`: `Intn(max - min + 1) + min` copies of `sub`, the
      first failure returned as it is. `Intn` panics on a bound that is not positive. */
  ghost function GenRepeat(s: Stream, sub: Regex, min: int, max: int, pos: nat): (r: Step<string>)
    requires Productive(s)
    ensures pos <= r.next && GenError(r.res)
    decreases sub, 4
  {
    var n := max - min + 1;
    if n <= 0 then Step(Panic, pos)
    else GenTimes(s, sub, s(pos) % n + min, pos + 1, [])
  }

  /** The copy loop of `repeatingGenerator`: `k` more copies of `sub` after `acc`. */
  ghost function GenTimes(s: Stream, sub: Regex, k: int, pos: nat, acc: string): (r: Step<string>)
    requires Productive(s)
    ensures pos <= r.next && GenError(r.res)
    ensures k <= 0 ==> r == Step(Ok(acc), pos)
    ensures r.res.Ok? ==> acc <= r.res.value
    decreases sub, 3, if k < 0 then 0 else k
  {
    if k <= 0 then Step(Ok(acc), pos)
    else
      var g := Gen(s, sub, pos);
      if !g.res.Ok? then Step(g.res.Propagate(), g.next)
      else GenTimes(s, sub, k - 1, g.next, acc + g.res.value)
  }

  /** The loop of `concatGenerator` from the `i`-th subexpression on, after `acc`: any error of
      a subexpression becomes `GenerationFailed`. */
  ghost function GenConcat(s: Stream, t: Regex, i: nat, pos: nat, acc: string): (r: Step<string>)
    requires Productive(s) && t.Concat? && i <= |t.subs|
    ensures pos <= r.next && GenError(r.res)
    decreases t, 1, |t.subs| - i
  {
    if i == |t.subs| then Step(Ok(acc), pos)
    else
      var g := Gen(s, t.subs[i], pos);
      if g.res.Err? then Step(Err(GenerationFailed), g.next)
      else if g.res.Panic? then Step(Panic, g.next)
      else GenConcat(s, t, i + 1, g.next, acc + g.res.value)
  }

  /** `alternateGenerator`: every alternative is generated, in order (the first failure is
      returned as it is), then `Intn` picks one of the strings. */
  ghost function GenAlternate(s: Stream, t: Regex, i: nat, pos: nat, acc: seq<string>): (r: Step<string>)
    requires Productive(s) && t.Alternate? && i <= |t.subs| && |acc| == i
    ensures pos <= r.next && GenError(r.res)
    decreases t, 1, |t.subs| - i
  {
    if i == |t.subs| then
      if |t.subs| == 0 then Step(Panic, pos)
      else Step(Ok(acc[s(pos) % |t.subs|]), pos + 1)
    else
      var g := Gen(s, t.subs[i], pos);
      if !g.res.Ok? then Step(g.res.Propagate(), g.next)
      else GenAlternate(s, t, i + 1, g.next, acc + [g.res.value])
  }

  /** The draw loop of `charClassGenerator` from the `i`-th pair on: one `Int31n` per pair. */
  function ClassDraws(s: Stream, runes: seq<int>, i: nat, pos: nat, acc: seq<int>): (r: Step<seq<int>>)
    requires i <= |runes| / 2
    ensures pos <= r.next && !r.res.Err?
    ensures r.res.Ok? ==> |r.res.value| == |acc| + |runes| / 2 - i
    decreases |runes| / 2 - i
  {
    if i == |runes| / 2 then Step(Ok(acc), pos)
    else
      var size := runes[2 * i + 1] - runes[2 * i] + 1;
      if size <= 0 then Step(Panic, pos)
      else ClassDraws(s, runes, i + 1, pos + 1, acc + [s(pos) % size + runes[2 * i]])
  }

  /** `charClassGenerator`: a rune drawn from every pair, then one of them picked by `Intn`. */
  function GenCharClass(s: Stream, runes: seq<int>, pos: nat): (r: Step<string>)
    ensures pos <= r.next && !r.res.Err?
  {
    var d := ClassDraws(s, runes, 0, pos, []);
    if !d.res.Ok? || |runes| / 2 == 0 then Step(Panic, d.next)
    else Step(Ok([RuneChar(d.res.value[s(d.next) % (|runes| / 2)])]), d.next + 1)
  }

  // ---- The generators as the source runs them ----

  /** `generate(r, t)`: dispatches on the op; `literalGenerator`, `charGenerator` (one letter of
      `randString`) and `emptyGenerator` are written inline. */
  method Generate(r: Rand, t: Regex) returns (res: Result<string>)
    requires r.Valid()
    modifies r
    ensures Step(res, r.pos) == Gen(r.stream, t, old(r.pos))
    decreases t, 2
  {
    match t
    case Star(sub) => res := RepeatingGenerator(r, sub, 0, 10);
    case Plus(sub) => res := RepeatingGenerator(r, sub, 1, 10);
    case Quest(sub) => res := RepeatingGenerator(r, sub, 0, 1);
    case Repeat(sub, min, max) => res := RepeatingGenerator(r, sub, min, max);
    case Alternate(_) => res := AlternateGenerator(r, t);
    case CharClass(runes) => res := CharClassGenerator(r, runes);
    case Capture(sub) => res := Generate(r, sub);
    case AnyChar => var b := RandString(r, 1); res := Ok(b);
    case AnyCharNotNL => var b := RandString(r, 1); res := Ok(b);
    case Literal(runes) => res := Ok(RuneString(runes));
    case Concat(_) => res := ConcatGenerator(r, t);
    case NoMatch => res := Err(NoMatchFailed);
    case _ => res := Ok([]);
  }

  /** `repeatingGenerator`. */
  method RepeatingGenerator(r: Rand, sub: Regex, min: int, max: int) returns (res: Result<string>)
    requires r.Valid()
    modifies r
    ensures Step(res, r.pos) == GenRepeat(r.stream, sub, min, max, old(r.pos))
    decreases sub, 4
  {
    ghost var s := r.stream;
    ghost var spec := GenRepeat(s, sub, min, max, r.pos);
    if max - min + 1 <= 0 {
      return Panic;
    }
    var repeat := r.Intn(max - min + 1);
    repeat := repeat + min;
    var buff := "";
    var i := 0;
    while i < repeat
      invariant GenTimes(s, sub, repeat - i, r.pos, buff) == spec
      decreases repeat - i
    {
      var g := Generate(r, sub);
      if !g.Ok? {
        return g.Propagate();
      }
      buff := buff + g.value;
      i := i + 1;
    }
    return Ok(buff);
  }

  /** `concatGenerator`. */
  method ConcatGenerator(r: Rand, t: Regex) returns (res: Result<string>)
    requires r.Valid() && t.Concat?
    modifies r
    ensures Step(res, r.pos) == GenConcat(r.stream, t, 0, old(r.pos), [])
    decreases t, 1
  {
    ghost var s := r.stream;
    ghost var spec := GenConcat(s, t, 0, r.pos, []);
    var buff := "";
    var i := 0;
    while i < |t.subs|
      invariant i <= |t.subs|
      invariant GenConcat(s, t, i, r.pos, buff) == spec
    {
      var g := Generate(r, t.subs[i]);
      if g.Err? {
        return Err(GenerationFailed);
      } else if g.Panic? {
        return Panic;
      }
      buff := buff + g.value;
      i := i + 1;
    }
    return Ok(buff);
  }

  /** `alternateGenerator`. */
  method AlternateGenerator(r: Rand, t: Regex) returns (res: Result<string>)
    requires r.Valid() && t.Alternate?
    modifies r
    ensures Step(res, r.pos) == GenAlternate(r.stream, t, 0, old(r.pos), [])
    decreases t, 1
  {
    ghost var s := r.stream;
    ghost var spec := GenAlternate(s, t, 0, r.pos, []);
    var all: seq<string> := [];
    var i := 0;
    while i < |t.subs|
      invariant i <= |t.subs| && |all| == i
      invariant GenAlternate(s, t, i, r.pos, all) == spec
    {
      var g := Generate(r, t.subs[i]);
      if !g.Ok? {
        return g.Propagate();
      }
      all := all + [g.value];
      i := i + 1;
    }
    if |t.subs| == 0 {
      return Panic;
    }
    var k := r.Intn(|t.subs|);
    return Ok(all[k]);
  }

  /** One pass of the draw loop. */
  lemma ClassDrawsStep(s: Stream, runes: seq<int>, i: nat, pos: nat, acc: seq<int>)
    requires i < |runes| / 2
    ensures 2 * i + 1 < |runes|
    ensures var size := runes[2 * i + 1] - runes[2 * i] + 1;
      ClassDraws(s, runes, i, pos, acc) ==
        if size <= 0 then Step(Panic, pos)
        else ClassDraws(s, runes, i + 1, pos + 1, acc + [s(pos) % size + runes[2 * i]])
  {}

  /** The draw loop when every pair is drawn. */
  lemma ClassDrawsDone(s: Stream, runes: seq<int>, i: nat, pos: nat, acc: seq<int>)
    requires i == |runes| / 2
    ensures ClassDraws(s, runes, i, pos, acc) == Step(Ok(acc), pos)
  {}

  /** Pairs `0..i` are all non-empty. */
  predicate PairsNonEmpty(runes: seq<int>, i: nat)
    requires i <= |runes| / 2
  {
    forall j :: 0 <= j < i ==> runes[2 * j + 1] - runes[2 * j] + 1 > 0
  }

  /** The runes the draw loop has written after `i` passes over non-empty pairs. */
  function Prefix(s: Stream, runes: seq<int>, pos: nat, i: nat): (p: seq<int>)
    requires i <= |runes| / 2 && PairsNonEmpty(runes, i)
    ensures |p| == i
  {
    if i == 0 then []
    else
      var j := i - 1;
      Prefix(s, runes, pos, j) + [s(pos + j) % (runes[2 * j + 1] - runes[2 * j] + 1) + runes[2 * j]]
  }

  /** After `i` passes over non-empty pairs, the draw loop is where `ClassDraws` is with that
      prefix in hand and `i` draws taken. */
  lemma {:induction false} ClassDrawsPrefix(s: Stream, runes: seq<int>, pos: nat, i: nat)
    requires i <= |runes| / 2 && PairsNonEmpty(runes, i)
    ensures ClassDraws(s, runes, 0, pos, []) == ClassDraws(s, runes, i, pos + i, Prefix(s, runes, pos, i))
  {
    if i > 0 {
      var j := i - 1;
      assert PairsNonEmpty(runes, j);
      ClassDrawsPrefix(s, runes, pos, j);
      var size := runes[2 * j + 1] - runes[2 * j] + 1;
      assert size > 0;
      var acc := Prefix(s, runes, pos, j);
      ClassDrawsStep(s, runes, j, pos + j, acc);
      assert ClassDraws(s, runes, j, pos + j, acc) == ClassDraws(s, runes, i, pos + i, acc + [s(pos + j) % size + runes[2 * j]]);
    }
  }

  /** The class generator panics at the first empty pair, `i` draws in. */
  lemma ClassPanics(s: Stream, runes: seq<int>, pos: nat, i: nat)
    requires i < |runes| / 2 && PairsNonEmpty(runes, i) && runes[2 * i + 1] - runes[2 * i] + 1 <= 0
    ensures GenCharClass(s, runes, pos) == Step(Panic, pos + i)
  {
    ClassDrawsPrefix(s, runes, pos, i);
    ClassDrawsStep(s, runes, i, pos + i, Prefix(s, runes, pos, i));
  }

  /** With every pair non-empty, the class generator picks one of the drawn runes. */
  lemma ClassPicks(s: Stream, runes: seq<int>, pos: nat)
    requires PairsNonEmpty(runes, |runes| / 2)
    ensures var n := |runes| / 2;
      GenCharClass(s, runes, pos) ==
        if n == 0 then Step(Panic, pos)
        else Step(Ok([RuneChar(Prefix(s, runes, pos, n)[s(pos + n) % n])]), pos + n + 1)
  {
    ClassDrawsPrefix(s, runes, pos, |runes| / 2);
    ClassDrawsDone(s, runes, |runes| / 2, pos + |runes| / 2, Prefix(s, runes, pos, |runes| / 2));
  }

  /** The draw loop's state after `i` passes: every pair so far non-empty, `i` draws taken
      since `p0`, and the first `i` cells of the buffer holding the runes drawn. */
  ghost predicate Drew(s: Stream, runes: seq<int>, p0: nat, i: nat, cells: seq<int>, pos: nat)
  {
    i <= |cells| == |runes| / 2 && PairsNonEmpty(runes, i) && pos == p0 + i &&
    cells[..i] == Prefix(s, runes, p0, i)
  }

  /** One pass over a non-empty pair: the rune drawn goes into cell `i`. */
  lemma DrewStep(s: Stream, runes: seq<int>, p0: nat, i: nat, cells: seq<int>, pos: nat, n: int)
    requires Drew(s, runes, p0, i, cells, pos) && i < |cells|
    requires runes[2 * i + 1] - runes[2 * i] + 1 > 0
    requires n == s(pos) % (runes[2 * i + 1] - runes[2 * i] + 1)
    ensures Drew(s, runes, p0, i + 1, cells[i := n + runes[2 * i]], pos + 1)
  {
    var x := n + runes[2 * i];
    assert cells[i := x][..i] == cells[..i];
    assert cells[i := x][..i + 1] == cells[..i] + [x];
  }

  /** The draw loop of `charClassGenerator`: one rune from each pair, in order, or a panic
      at the first empty pair. */
  method DrawRunes(r: Rand, runes: seq<int>) returns (drawn: array<int>, ok: bool)
    modifies r
    ensures fresh(drawn)
    ensures ok ==> Drew(r.stream, runes, old(r.pos), |runes| / 2, drawn[..], r.pos)
    ensures !ok ==> GenCharClass(r.stream, runes, old(r.pos)) == Step(Panic, r.pos)
  {
    ghost var s, p0 := r.stream, r.pos;
    drawn := new int[|runes| / 2];
    var i := 0;
    while i < drawn.Length
      invariant Drew(s, runes, p0, i, drawn[..], r.pos)
    {
      var size := runes[2 * i + 1] - runes[2 * i] + 1;
      if size <= 0 {
        ClassPanics(s, runes, p0, i);
        return drawn, false;
      }
      ghost var cells, pos := drawn[..], r.pos;
      var n := r.Intn(size);
      DrewStep(s, runes, p0, i, cells, pos, n);
      drawn[i] := n + runes[2 * i];
      assert drawn[..] == cells[i := n + runes[2 * i]];
      i := i + 1;
    }
    return drawn, true;
  }

  /** `charClassGenerator` on the class's pairs. */
  method CharClassGenerator(r: Rand, runes: seq<int>) returns (res: Result<string>)
    modifies r
    ensures Step(res, r.pos) == GenCharClass(r.stream, runes, old(r.pos))
  {
    ghost var p0 := r.pos;
    var drawn, ok := DrawRunes(r, runes);
    if !ok {
      return Panic;
    }
    ClassPicks(r.stream, runes, p0);
    assert drawn[..] == Prefix(r.stream, runes, p0, drawn.Length);
    if drawn.Length == 0 {
      return Panic;
    }
    var k := r.Intn(drawn.Length);
    return Ok([RuneChar(drawn[k])]);
  }

  // ---- What the generator produces ----

  /** The number of copies `generate` asks `repeatingGenerator` for: `*` and `+` are capped at
      ten copies. */
  function GenBounds(t: Regex): (b: (int, int))
    requires t.Repetition()
    ensures t.Star? || t.Plus? ==> b.1 == 10
    ensures !t.Repeat? ==> 0 <= b.0 <= b.1 && LangBounds(t).0 == b.0
    ensures !t.Repeat? && LangBounds(t).1 >= 0 ==> LangBounds(t).1 == b.1
  {
    match t
    case Star(_) => (0, 10)
    case Plus(_) => (1, 10)
    case Quest(_) => (0, 1)
    case Repeat(_, min, max) => (min, max)
  }

  /** A well-formed tree always generates a string, and the string is in the tree's language. */
  lemma {:induction false} GenSound(s: Stream, t: Regex, pos: nat)
    requires Productive(s) && WellFormed(t)
    ensures Gen(s, t, pos).res.Ok? && Matches(t, Gen(s, t, pos).res.value)
    decreases t, 2
  {
    match t
    case Star(sub) => RepetitionSound(s, t, pos);
    case Plus(sub) => RepetitionSound(s, t, pos);
    case Quest(sub) => RepetitionSound(s, t, pos);
    case Repeat(sub, min, max) => RepetitionSound(s, t, pos);
    case Alternate(_) => GenAlternateSound(s, t, 0, pos, []);
    case CharClass(runes) => CharClassSound(s, runes, pos);
    case Capture(sub) => GenSound(s, sub, pos);
    case AnyChar =>
    case AnyCharNotNL =>
      var b := RandStringSpec(s, pos, 1);
      assert IsLetter(b.0[0]);
    case Literal(runes) =>
    case Concat(_) =>
      GenConcatSound(s, t, 0, pos, []);
      assert Gen(s, t, pos).res.value[0..] == Gen(s, t, pos).res.value;
    case _ =>
  }

  /** A repetition generates between the bounds `generate` passes on (at most ten copies for
      `*` and `+`), and so within the bounds of its language. */
  lemma {:induction false} RepetitionSound(s: Stream, t: Regex, pos: nat)
    requires Productive(s) && WellFormed(t) && t.Repetition()
    ensures var r := Gen(s, t, pos); var (lo, hi) := GenBounds(t);
      r.res.Ok? && Matches(t, r.res.value) &&
      exists n: nat :: lo <= n <= hi && Power(t.sub, r.res.value, n)
    decreases t, 1
  {
    var (lo, hi) := GenBounds(t);
    GenRepeatSound(s, t.sub, lo, hi, pos);
    var w := Gen(s, t, pos).res.value;
    var n: nat :| lo <= n <= hi && Power(t.sub, w, n);
    var (llo, lhi) := LangBounds(t);
    assert llo <= n && (lhi < 0 || n <= lhi);
  }

  /** `repeatingGenerator` with `0 <= min <= max` on a well-formed subexpression emits between
      `min` and `max` matches of it. */
  lemma {:induction false} GenRepeatSound(s: Stream, sub: Regex, min: int, max: int, pos: nat)
    requires Productive(s) && WellFormed(sub) && 0 <= min <= max
    ensures var r := GenRepeat(s, sub, min, max, pos);
      r.res.Ok? && exists n: nat :: min <= n <= max && Power(sub, r.res.value, n)
    decreases sub, 4
  {
    var k := s(pos) % (max - min + 1) + min;
    GenTimesSound(s, sub, k, pos + 1, []);
    var w := GenTimes(s, sub, k, pos + 1, []).res.value;
    assert w[0..] == w;
    assert Power(sub, w, k);
  }

  /** The copy loop emits exactly `k` matches of `sub` after what it was given. */
  lemma {:induction false} GenTimesSound(s: Stream, sub: Regex, k: nat, pos: nat, acc: string)
    requires Productive(s) && WellFormed(sub)
    ensures var r := GenTimes(s, sub, k, pos, acc);
      r.res.Ok? && |acc| <= |r.res.value| && r.res.value[..|acc|] == acc &&
      Power(sub, r.res.value[|acc|..], k)
    decreases sub, 3, k
  {
    if k == 0 {
      assert acc[|acc|..] == [];
    } else {
      var g := Gen(s, sub, pos);
      GenSound(s, sub, pos);
      var m := |g.res.value|;
      var acc' := acc + g.res.value;
      GenTimesSound(s, sub, k - 1, g.next, acc');
      var v := GenTimes(s, sub, k - 1, g.next, acc').res.value;
      assert GenTimes(s, sub, k, pos, acc).res.value == v;
      var w := v[|acc|..];
      PrefixSplit(acc, g.res.value, v);
      assert 0 <= m <= |w| && Matches(sub, w[..m]) && Power(sub, w[m..], k - 1);
    }
  }

  /** A string that starts with `acc + x` starts with `acc`, and what follows `acc` starts with `x`. */
  lemma PrefixSplit(acc: string, x: string, v: string)
    requires |acc + x| <= |v| && v[..|acc + x|] == acc + x
    ensures v[..|acc|] == acc
    ensures v[|acc|..][..|x|] == x && v[|acc|..][|x|..] == v[|acc + x|..]
  {
    assert v[..|acc|] == (acc + x)[..|acc|];
    assert v[|acc|..][..|x|] == (acc + x)[|acc|..];
  }

  /** The concatenation loop emits one match of each remaining subexpression, in order. */
  lemma {:induction false} GenConcatSound(s: Stream, t: Regex, i: nat, pos: nat, acc: string)
    requires Productive(s) && WellFormed(t) && t.Concat? && i <= |t.subs|
    ensures var r := GenConcat(s, t, i, pos, acc);
      r.res.Ok? && |acc| <= |r.res.value| && r.res.value[..|acc|] == acc &&
      MatchesFrom(t, i, r.res.value[|acc|..])
    decreases t, 1, |t.subs| - i
  {
    if i == |t.subs| {
      assert acc[|acc|..] == [];
    } else {
      var g := Gen(s, t.subs[i], pos);
      GenSound(s, t.subs[i], pos);
      var m := |g.res.value|;
      var acc' := acc + g.res.value;
      GenConcatSound(s, t, i + 1, g.next, acc');
      var v := GenConcat(s, t, i + 1, g.next, acc').res.value;
      assert GenConcat(s, t, i, pos, acc).res.value == v;
      var w := v[|acc|..];
      assert v[..|acc|] == acc' [..|acc|] == acc;
      assert w[..m] == acc'[|acc|..] == g.res.value;
      assert w[m..] == v[|acc'|..];
      assert 0 <= m <= |w| && Matches(t.subs[i], w[..m]) && MatchesFrom(t, i + 1, w[m..]);
    }
  }

  /** An alternation emits a match of one of its alternatives. */
  lemma {:induction false} GenAlternateSound(s: Stream, t: Regex, i: nat, pos: nat, acc: seq<string>)
    requires Productive(s) && WellFormed(t) && t.Alternate? && i <= |t.subs| && |acc| == i
    requires forall j :: 0 <= j < i ==> Matches(t.subs[j], acc[j])
    ensures var r := GenAlternate(s, t, i, pos, acc);
      r.res.Ok? && exists j :: 0 <= j < |t.subs| && Matches(t.subs[j], r.res.value)
    decreases t, 1, |t.subs| - i
  {
    if i == |t.subs| {
      var j := s(pos) % |t.subs|;
      assert Matches(t.subs[j], acc[j]);
    } else {
      var g := Gen(s, t.subs[i], pos);
      GenSound(s, t.subs[i], pos);
      GenAlternateSound(s, t, i + 1, g.next, acc + [g.res.value]);
    }
  }

  /** The pair holds at least one rune, so `Int31n` accepts its size. */
  predicate PairNonEmpty(runes: seq<int>, j: int)
  {
    0 <= j && 2 * j + 1 < |runes| && runes[2 * j] <= runes[2 * j + 1]
  }

  /** The draw loop succeeds exactly when every remaining pair is non-empty, and each rune it
      draws lies in its own pair. */
  lemma {:induction false} ClassDrawsInPairs(s: Stream, runes: seq<int>, i: nat, pos: nat, acc: seq<int>)
    requires i <= |runes| / 2 && |acc| == i
    requires forall j :: 0 <= j < i ==> InPair(runes, j, acc[j])
    ensures var r := ClassDraws(s, runes, i, pos, acc);
      (r.res.Ok? <==> forall j :: i <= j < |runes| / 2 ==> PairNonEmpty(runes, j)) &&
      (r.res.Ok? ==> forall j :: 0 <= j < |r.res.value| ==> InPair(runes, j, r.res.value[j]))
    decreases |runes| / 2 - i
  {
    if i < |runes| / 2 {
      ClassDrawsStep(s, runes, i, pos, acc);
      var size := runes[2 * i + 1] - runes[2 * i] + 1;
      if size > 0 {
        var x := s(pos) % size + runes[2 * i];
        assert InPair(runes, i, x);
        ClassDrawsInPairs(s, runes, i + 1, pos + 1, acc + [x]);
      } else {
        assert !PairNonEmpty(runes, i);
      }
    }
  }

  /** `charClassGenerator` succeeds exactly when the class has a pair and every pair is
      non-empty; it then emits one rune drawn from one of the pairs, through `string(rune)`. */
  lemma ClassEmitsOneRune(s: Stream, runes: seq<int>, pos: nat)
    ensures var r := GenCharClass(s, runes, pos);
      (r.res.Ok? <==> |runes| >= 2 && forall j :: 0 <= j < |runes| / 2 ==> PairNonEmpty(runes, j)) &&
      (r.res.Ok? ==> exists j, x :: InPair(runes, j, x) && r.res.value == [RuneChar(x)])
  {
    ClassDrawsInPairs(s, runes, 0, pos, []);
    var d := ClassDraws(s, runes, 0, pos, []);
    if d.res.Ok? && |runes| / 2 > 0 {
      var k := s(d.next) % (|runes| / 2);
      assert InPair(runes, k, d.res.value[k]);
    }
  }

  lemma PairOfIndex(n: nat, j: int)
    requires 0 <= j && 2 * j + 1 < n
    ensures j < n / 2
  {}

  /** A well-formed char class emits a rune of the class: a surrogate drawn from a pair comes
      out as U+FFFD, which the class then holds. */
  lemma CharClassSound(s: Stream, runes: seq<int>, pos: nat)
    requires WellFormed(CharClass(runes))
    ensures var r := GenCharClass(s, runes, pos);
      r.res.Ok? && Matches(CharClass(runes), r.res.value)
  {
    ClassEmitsOneRune(s, runes, pos);
    forall j | 0 <= j < |runes| / 2
      ensures PairNonEmpty(runes, j)
    {
      assert GoodPair(runes, j);
    }
    var r := GenCharClass(s, runes, pos);
    var j, x :| InPair(runes, j, x) && r.res.value == [RuneChar(x)];
    PairOfIndex(|runes|, j);
    assert GoodPair(runes, j);
    if IsScalar(x) {
      assert InPair(runes, j, RuneChar(x) as int);
    } else {
      assert InClass(runes, RuneChar(x) as int);
    }
  }

  /** A class whose pair spans the surrogates while U+FFFD sits in another pair, as Go parses
      classes such as `\PL`, is well formed, so its output matches it. */
  lemma SplitSurrogateClassSound(s: Stream, pos: nat)
    ensures var r := GenCharClass(s, [0xD7FC, 0xF8FF, 0xFFFD, 0xFFFD], pos);
      r.res.Ok? && Matches(CharClass([0xD7FC, 0xF8FF, 0xFFFD, 0xFFFD]), r.res.value)
  {
    var runes := [0xD7FC, 0xF8FF, 0xFFFD, 0xFFFD];
    assert InPair(runes, 1, 0xFFFD);
    assert forall j :: 0 <= j < |runes| / 2 ==> GoodPair(runes, j);
    CharClassSound(s, runes, pos);
  }

  /** The surrogate block as a class: every draw is a surrogate, `string(rune)` turns it into
      U+FFFD, and U+FFFD is not in the class, so the output misses the pattern. */
  lemma SurrogateClassEscapes(s: Stream, pos: nat)
    requires Productive(s)
    ensures var r := Gen(s, CharClass([0xD800, 0xDFFF]), pos);
      r.res == Ok("\U{FFFD}") && !Matches(CharClass([0xD800, 0xDFFF]), r.res.value)
  {
    var runes := [0xD800, 0xDFFF];
    var x := s(pos) % 0x800 + 0xD800;
    assert |runes| / 2 == 1 && runes[1] - runes[0] + 1 == 0x800;
    assert [] + [x] == [x];
    assert ClassDraws(s, runes, 1, pos + 1, [x]) == Step(Ok([x]), pos + 1);
    assert !IsScalar(x);
    assert !InPair(runes, 0, 0xFFFD);
  }

  /** Every error of a concatenation is the fixed `GenerationFailed`, whatever its
      subexpression reported. */
  lemma {:induction false} ConcatMasksErrors(s: Stream, t: Regex, i: nat, pos: nat, acc: string)
    requires Productive(s) && t.Concat? && i <= |t.subs|
    ensures var r := GenConcat(s, t, i, pos, acc); r.res.Err? ==> r.res.msg == GenerationFailed
    decreases |t.subs| - i
  {
    if i < |t.subs| {
      var g := Gen(s, t.subs[i], pos);
      if g.res.Ok? {
        ConcatMasksErrors(s, t, i + 1, g.next, acc + g.res.value);
      }
    }
  }

  /** The subexpressions `i` to `m - 1` each succeed, one after the other, from `pos` draws
      taken to `p`. */
  ghost predicate OkRun(s: Stream, subs: seq<Regex>, i: nat, m: nat, pos: nat, p: nat)
    requires Productive(s) && i <= m <= |subs|
    decreases m - i
  {
    if i == m then p == pos
    else
      var g := Gen(s, subs[i], pos);
      g.res.Ok? && OkRun(s, subs, i + 1, m, g.next, p)
  }

  /** `m` copies of `sub` each succeed, one after the other, from `pos` draws taken to `p`. */
  ghost predicate OkCopies(s: Stream, sub: Regex, m: nat, pos: nat, p: nat)
    requires Productive(s)
  {
    if m == 0 then p == pos
    else
      var g := Gen(s, sub, pos);
      g.res.Ok? && OkCopies(s, sub, m - 1, g.next, p)
  }

  /** An alternation returns the first failing alternative's own outcome and draws, even after
      the alternatives before it succeeded and whichever would have been picked. */
  lemma ErrorsPassThroughAlternation(s: Stream, subs: seq<Regex>, m: nat, pos: nat, p: nat)
    requires Productive(s) && m < |subs| && OkRun(s, subs, 0, m, pos, p) && !Gen(s, subs[m], p).res.Ok?
    ensures Gen(s, Alternate(subs), pos) == Gen(s, subs[m], p)
  {
    AlternateFailsAt(s, Alternate(subs), 0, pos, [], m, p);
  }

  lemma {:induction false} AlternateFailsAt(s: Stream, t: Regex, i: nat, pos: nat, acc: seq<string>, m: nat, p: nat)
    requires Productive(s) && t.Alternate? && i <= m < |t.subs| && |acc| == i
    requires OkRun(s, t.subs, i, m, pos, p) && !Gen(s, t.subs[m], p).res.Ok?
    ensures GenAlternate(s, t, i, pos, acc) == Gen(s, t.subs[m], p)
    decreases m - i
  {
    var g := Gen(s, t.subs[i], pos);
    if i < m {
      AlternateFailsAt(s, t, i + 1, g.next, acc + [g.res.value], m, p);
    }
  }

  /** A capture group generates what its subexpression does. */
  lemma CaptureIsTransparent(s: Stream, sub: Regex, pos: nat)
    requires Productive(s)
    ensures Gen(s, Capture(sub), pos) == Gen(s, sub, pos)
  {}

  /** A concatenation stops at its first failing subexpression, after the ones before it
      succeeded: an error becomes `GenerationFailed`, a panic stays a panic, and the draws are
      those the failing one took. */
  lemma ErrorsMaskedInConcatenation(s: Stream, subs: seq<Regex>, m: nat, pos: nat, p: nat)
    requires Productive(s) && m < |subs| && OkRun(s, subs, 0, m, pos, p) && !Gen(s, subs[m], p).res.Ok?
    ensures var g := Gen(s, subs[m], p);
      Gen(s, Concat(subs), pos) == Step(if g.res.Err? then Err(GenerationFailed) else Panic, g.next)
  {
    ConcatFailsAt(s, Concat(subs), 0, pos, [], m, p);
  }

  lemma {:induction false} ConcatFailsAt(s: Stream, t: Regex, i: nat, pos: nat, acc: string, m: nat, p: nat)
    requires Productive(s) && t.Concat? && i <= m < |t.subs|
    requires OkRun(s, t.subs, i, m, pos, p) && !Gen(s, t.subs[m], p).res.Ok?
    ensures var g := Gen(s, t.subs[m], p);
      GenConcat(s, t, i, pos, acc) == Step(if g.res.Err? then Err(GenerationFailed) else Panic, g.next)
    decreases m - i
  {
    var g := Gen(s, t.subs[i], pos);
    if i < m {
      ConcatFailsAt(s, t, i + 1, g.next, acc + g.res.value, m, p);
    }
  }

  /** A repetition returns the first failing copy's own outcome and draws, after the copies
      before it succeeded; the count is drawn first. */
  lemma ErrorsPassThroughRepetition(s: Stream, sub: Regex, min: int, max: int, pos: nat, m: nat, p: nat)
    requires Productive(s) && min <= max && m < s(pos) % (max - min + 1) + min
    requires OkCopies(s, sub, m, pos + 1, p) && !Gen(s, sub, p).res.Ok?
    ensures GenRepeat(s, sub, min, max, pos) == Gen(s, sub, p)
    ensures Gen(s, Repeat(sub, min, max), pos) == Gen(s, sub, p)
  {
    TimesFailsAt(s, sub, s(pos) % (max - min + 1) + min, pos + 1, [], m, p);
  }

  lemma {:induction false} TimesFailsAt(s: Stream, sub: Regex, k: int, pos: nat, acc: string, m: nat, p: nat)
    requires Productive(s) && m < k && OkCopies(s, sub, m, pos, p) && !Gen(s, sub, p).res.Ok?
    ensures GenTimes(s, sub, k, pos, acc) == Gen(s, sub, p)
    decreases m
  {
    var g := Gen(s, sub, pos);
    if 0 < m {
      TimesFailsAt(s, sub, k - 1, g.next, acc + g.res.value, m - 1, p);
    }
  }

  /** The zero-width ops emit the empty string and draw nothing. */
  lemma ZeroWidthEmitsNothing(s: Stream, t: Regex, pos: nat)
    requires Productive(s) && t.ZeroWidth()
    ensures Gen(s, t, pos) == Step(Ok([]), pos)
  {}

  /** `.` emits one character of the 62 letters and digits. */
  lemma AnyCharEmitsOneLetter(s: Stream, pos: nat)
    requires Productive(s)
    ensures var r := Gen(s, AnyChar, pos);
      r.res.Ok? && |r.res.value| == 1 && IsLetter(r.res.value[0]) && pos < r.next
    ensures Gen(s, AnyCharNotNL, pos) == Gen(s, AnyChar, pos)
  {}

  /** A literal emits its runes, and draws nothing. */
  lemma LiteralEmitsRunes(s: Stream, runes: seq<int>, pos: nat)
    requires Productive(s) && WellFormed(Literal(runes))
    ensures var r := Gen(s, Literal(runes), pos);
      r.next == pos && r.res.Ok? && |r.res.value| == |runes| &&
      forall i :: 0 <= i < |runes| ==> r.res.value[i] as int == runes[i]
  {}

  // ---- fillRegexSimple ----

  const ValidationFailed: string := "regex validation failed"
  const ParseFailed: string := "regex parse failed"

  /** The tag matches `^regex\[.*]$`: `regex[`, then characters other than a newline, then `]`
      as the last character. */
  predicate TagShape(tag: string)
    ensures TagShape(tag) ==> 7 <= |tag| && tag == "regex[" + tag[6..|tag| - 1] + "]" && '\n' !in tag[6..|tag| - 1]
  {
    |tag| >= 7 && tag[..6] == "regex[" && tag[|tag| - 1] == ']' &&
    forall i :: 6 <= i < |tag| - 1 ==> tag[i] != '\n'
  }

  /** `getParsedRegex` up to the parser: the pattern the tag hands to `syntax.Parse`. */
  function PatternOf(tag: string): (p: string)
    ensures TagShape(tag) ==> p == tag[6..|tag| - 1]
  {
    TrimSuffix(TrimPrefix(tag, "regex["), "]")
  }

  /** Any pattern without a newline, between `regex[` and `]`, makes a tag of the right shape,
      and the pattern handed to the parser is that pattern again. */
  lemma PatternRoundTrip(p: string)
    requires '\n' !in p
    ensures TagShape("regex[" + p + "]") && PatternOf("regex[" + p + "]") == p
  {
    var tag := "regex[" + p + "]";
    assert tag[..6] == "regex[";
    assert tag[6..|tag| - 1] == p;
    forall i | 6 <= i < |tag| - 1 ensures tag[i] != '\n' {
      assert tag[i] == p[i - 6];
    }
  }

  /** `fillRegexSimple` on a field of kind `kind`: `parse` stands for `syntax.Parse` in Perl
      mode followed by `Simplify` (`None` when the parser reports an error). */
  ghost function FillRegex(s: Stream, pos: nat, parse: string -> Option<Regex>, kind: Kind, tag: string): (r: Step<Value>)
    requires Productive(s)
    ensures pos <= r.next
    ensures r.res.Ok? ==> Fits(kind, r.res.value)
  {
    if !TagShape(tag) then Step(Err(ValidationFailed), pos)
    else
      var t := parse(PatternOf(tag));
      if t.None? then Step(Err(ParseFailed), pos)
      else
        StoreGenerated(Gen(s, t.value, pos), kind)
  }

  /** What `fillRegexSimple` makes of the generator's outcome `g` for a field of kind `kind`. */
  function StoreGenerated(g: Step<string>, kind: Kind): (r: Step<Value>)
    ensures r.next == g.next
    ensures r.res.Ok? ==> Fits(kind, r.res.value)
    ensures g.res.Err? ==> r.res == Err(g.res.msg)
    ensures g.res.Panic? ==> r.res.Panic?
    ensures g.res.Ok? && kind == String ==> r.res == Ok(StrV(g.res.value))
    ensures g.res.Ok? && IsSigned(kind) ==> r.res == Ok(IntV(WrapSigned(ParseInt(g.res.value).value, Bits(kind))))
    ensures g.res.Ok? && kind != String && !IsSigned(kind) ==> r.res == Err("kind not supported: " + Name(kind))
  {
    if !g.res.Ok? then Step(g.res.Propagate(), g.next)
    else if kind == String then Step(Ok(StrV(g.res.value)), g.next)
    else if IsSigned(kind) then Step(Ok(IntV(WrapSigned(ParseInt(g.res.value).value, Bits(kind)))), g.next)
    else Step(Err("kind not supported: " + Name(kind)), g.next)
  }

  /** `fillRegexSimple(r, field, tag)`: the value to store in the field, or the error. */
  method FillRegexSimple(r: Rand, parse: string -> Option<Regex>, kind: Kind, tag: string) returns (res: Result<Value>)
    requires r.Valid()
    modifies r
    ensures Step(res, r.pos) == FillRegex(r.stream, old(r.pos), parse, kind, tag)
  {
    if !TagShape(tag) {
      return Err(ValidationFailed);
    }
    var t := parse(PatternOf(tag));
    if t.None? {
      return Err(ParseFailed);
    }
    ghost var p0 := r.pos;
    var w := Generate(r, t.value);
    assert FillRegex(r.stream, p0, parse, kind, tag) == StoreGenerated(Step(w, r.pos), kind);
    if !w.Ok? {
      return w.Propagate();
    }
    if kind == String {
      res := Ok(StrV(w.value));
    } else if IsSigned(kind) {
      var i := ParseInt(w.value);
      res := Ok(IntV(WrapSigned(i.value, Bits(kind))));
    } else {
      res := Err("kind not supported: " + Name(kind));
    }
  }

  /** A tag of the wrong shape is refused before the parser is consulted or anything is drawn;
      a pattern the parser refuses is reported before anything is drawn. */
  lemma FillRegexChecksFirst(s: Stream, pos: nat, parse: string -> Option<Regex>, kind: Kind, tag: string)
    requires Productive(s)
    ensures !TagShape(tag) ==> FillRegex(s, pos, parse, kind, tag) == Step(Err(ValidationFailed), pos)
    ensures TagShape(tag) && parse(tag[6..|tag| - 1]).None? ==>
      FillRegex(s, pos, parse, kind, tag) == Step(Err(ParseFailed), pos)
  {}

  /** Once the pattern generates, an integer field stores the generated digits' value truncated
      to its width (for instance ten digits from `[0-9]{10}`), and a kind other than a string or a
      signed integer is refused by name. */
  lemma FillRegexStoresByKind(s: Stream, pos: nat, parse: string -> Option<Regex>, kind: Kind, tag: string)
    requires Productive(s) && TagShape(tag) && parse(tag[6..|tag| - 1]).Some?
    ensures var g := Gen(s, parse(tag[6..|tag| - 1]).value, pos); var r := FillRegex(s, pos, parse, kind, tag);
      g.res.Ok? && IsSigned(kind) && g.res.value != [] && AllDigits(g.res.value) && Decimal(g.res.value) <= MaxInt64 ==>
        r.res == Ok(IntV(WrapSigned(Decimal(g.res.value), Bits(kind))))
    ensures var g := Gen(s, parse(tag[6..|tag| - 1]).value, pos);
      g.res.Ok? && kind != String && !IsSigned(kind) ==>
        FillRegex(s, pos, parse, kind, tag) == Step(Err("kind not supported: " + Name(kind)), g.next)
  {
    var g := Gen(s, parse(tag[6..|tag| - 1]).value, pos);
    if g.res.Ok? && IsSigned(kind) && g.res.value != [] && AllDigits(g.res.value) && Decimal(g.res.value) <= MaxInt64 {
      ParseIntOfDigits(g.res.value);
    }
  }

  /** A well-formed parsed pattern fills a string field with a string of its language. */
  lemma FillRegexSound(s: Stream, pos: nat, parse: string -> Option<Regex>, tag: string)
    requires Productive(s) && TagShape(tag)
    requires parse(tag[6..|tag| - 1]).Some? && WellFormed(parse(tag[6..|tag| - 1]).value)
    ensures var r := FillRegex(s, pos, parse, String, tag);
      r.res.Ok? && r.res.value.StrV? && Matches(parse(tag[6..|tag| - 1]).value, r.res.value.s)
  {
    GenSound(s, parse(tag[6..|tag| - 1]).value, pos);
  }

  /** An integer field stores what `ParseInt` makes of the generated string with its error
      ignored, so a string that starts with neither a sign nor a digit stores 0. */
  lemma FillRegexIntIgnoresParseError(s: Stream, pos: nat, parse: string -> Option<Regex>, kind: Kind, tag: string)
    requires Productive(s) && TagShape(tag) && IsSigned(kind)
    requires parse(tag[6..|tag| - 1]).Some?
    requires var g := Gen(s, parse(tag[6..|tag| - 1]).value, pos);
      g.res.Ok? && g.res.value != [] && g.res.value[0] != '+' && g.res.value[0] != '-' && !IsDigit(g.res.value[0])
    ensures FillRegex(s, pos, parse, kind, tag).res == Ok(IntV(0))
  {
    var g := Gen(s, parse(tag[6..|tag| - 1]).value, pos);
    ParseIntRejectsLetter(g.res.value);
  }
}
