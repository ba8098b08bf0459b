/** The `rand[min;max;step]` directive: constraint parsing and validation, the draws for each
    destination kind, and the letter-string filler `randString`. */
module RandomMaker {
  import opened Wrappers
  import opened Kinds
  import opened Strconv
  import opened Entropy

  datatype Constraints = Constraints(min: int, max: int, step: real)

  const DefaultConstraints := Constraints(1, 10, 1.0)

  /** `constraints.Validate`: the three checks in their order; the step must be whole only
      for the integer kinds. */
  function Validate(c: Constraints, k: Kind): (o: Outcome)
    ensures o.Pass? || o.Fail?
  {
    if c.min > c.max then Fail("min bigger then max")
    else if c.step < 0.0 then Fail("negative step")
    else if (IsSigned(k) || IsUnsigned(k)) && c.step.Floor as real != c.step then
      Fail("step not whole number for int type")
    else Pass
  }

  lemma ValidateOrder(c: Constraints, k: Kind)
    ensures c.min > c.max ==> Validate(c, k) == Fail("min bigger then max")
    ensures c.min <= c.max && c.step < 0.0 ==> Validate(c, k) == Fail("negative step")
    ensures c.min <= c.max && c.step >= 0.0 && (IsSigned(k) || IsUnsigned(k)) ==>
      (Validate(c, k) == Fail("step not whole number for int type") <==> c.step.Floor as real != c.step)
    ensures Validate(c, k) == Pass <==>
      c.min <= c.max && c.step >= 0.0 && ((IsSigned(k) || IsUnsigned(k)) ==> c.step.Floor as real == c.step)
  {
  }

  /** Any kind other than the integer kinds accepts a fractional step. */
  lemma FractionalStepAcceptedForNonIntegers(c: Constraints, k: Kind)
    requires c.min <= c.max && c.step >= 0.0 && !IsSigned(k) && !IsUnsigned(k)
    ensures Validate(c, k) == Pass
  {
  }

  // ---- getOptions: the first match of `\[(\d*)?;(\d*)?;(\d*\.?\d)?]` ----

  /** The end of the run of digits that starts at `i`. */
  function DigitRun(s: string, i: nat): (e: nat)
    requires i <= |s|
    ensures i <= e <= |s| && AllDigits(s[i..e])
    ensures e == |s| || !IsDigit(s[e])
    decreases |s| - i
  {
    if i < |s| && IsDigit(s[i]) then
      var e := DigitRun(s, i + 1);
      assert s[i..e] == [s[i]] + s[i + 1..e];
      e
    else i
  }

  /** The shape the third group can take: empty, digits, or digits, a dot and one digit. */
  predicate StepText(t: string)
  {
    AllDigits(t) || (|t| >= 2 && AllDigits(t[..|t| - 2]) && t[|t| - 2] == '.' && IsDigit(t[|t| - 1]))
  }

  /** The three groups when the pattern matches at position `i`. */
  function MatchAt(s: string, i: nat): (r: Option<(string, string, string)>)
    requires i <= |s|
    ensures r.Some? ==> AllDigits(r.value.0) && AllDigits(r.value.1) && StepText(r.value.2)
  {
    if i == |s| || s[i] != '[' then None
    else
      var a := DigitRun(s, i + 1);
      if a == |s| || s[a] != ';' then None
      else
        var b := DigitRun(s, a + 1);
        if b == |s| || s[b] != ';' then None
        else
          var c := DigitRun(s, b + 1);
          if c < |s| && s[c] == ']' then Some((s[i + 1..a], s[a + 1..b], s[b + 1..c]))
          else if c + 2 < |s| && s[c] == '.' && IsDigit(s[c + 1]) && s[c + 2] == ']' then
            assert s[b + 1..c + 2][..c - b - 1] == s[b + 1..c];
            Some((s[i + 1..a], s[a + 1..b], s[b + 1..c + 2]))
          else None
  }

  /** `FindStringSubmatch`: the leftmost match at or after `i`. */
  function FindFrom(s: string, i: nat): (r: Option<(string, string, string)>)
    requires i <= |s|
    ensures r.Some? ==> AllDigits(r.value.0) && AllDigits(r.value.1) && StepText(r.value.2)
    decreases |s| - i
  {
    if i == |s| then None
    else match MatchAt(s, i)
      case Some(g) => Some(g)
      case None => FindFrom(s, i + 1)
  }

  /** The number a non-empty text of the third group's shape spells: digits, or digits, a dot
      and one more digit. */
  function StepNumber(t: string): (x: real)
    requires StepText(t)
    ensures 0.0 <= x
    ensures AllDigits(t) ==> x == Decimal(t) as real
  {
    if AllDigits(t) then Decimal(t) as real
    else Decimal(t[..|t| - 2]) as real + DigitValue(t[|t| - 1]) as real / 10.0
  }

  /** The least number `strconv.ParseFloat(_, 32)` rounds past the largest float32, so that
      it reports a range error: 2^128 - 2^103, halfway between the largest float32 and 2^128
      (a tie rounds to the even neighbour, 2^128). */
  const Float32Overflow: real := 340282356779733661637539395458142568448.0

  /** `strconv.ParseFloat(t, 32)` on a text of the third group's shape: no number for the
      empty text (a syntax error) or for one at or past the float32 range (a range error).
      Rounding to the nearest float32 is not modelled. */
  function StepValue(t: string): (r: Option<real>)
    requires StepText(t)
    ensures r.None? <==> t == [] || StepNumber(t) >= Float32Overflow
    ensures r.Some? ==> r.value == StepNumber(t) && 0.0 <= r.value < Float32Overflow
  {
    if t == [] || StepNumber(t) >= Float32Overflow then None
    else Some(StepNumber(t))
  }

  /** `getOptions`: the defaults, each overridden by a group that parses. The bounds a tag can
      set are never negative and fit in an int64, and the step is never negative and below the
      float32 overflow: `\d*` admits no sign, and `Atoi` and `ParseFloat` reject what overflows. */
  function GetOptions(tag: string): (c: Constraints)
    ensures 0 <= c.min <= MaxInt64 && 0 <= c.max <= MaxInt64
    ensures 0.0 <= c.step < Float32Overflow
  {
    match FindFrom(tag, 0)
    case None => DefaultConstraints
    case Some((g1, g2, g3)) =>
      AtoiOfDigits(g1);
      AtoiOfDigits(g2);
      var min := Atoi(g1);
      var max := Atoi(g2);
      var step := StepValue(g3);
      Constraints(
        if min.Some? then min.value else DefaultConstraints.min,
        if max.Some? then max.value else DefaultConstraints.max,
        if step.Some? then step.value else DefaultConstraints.step)
  }

  /** What `Atoi` makes of a group of digits: its number when int64 holds it. */
  function DigitsOption(t: string, default: int): int
    requires AllDigits(t)
  {
    if t == [] || Decimal(t) > MaxInt64 then default else Decimal(t)
  }

  lemma {:induction false} FindNone(s: string, i: nat)
    requires i <= |s|
    requires forall j :: i <= j < |s| ==> s[j] != '['
    ensures FindFrom(s, i) == None
    decreases |s| - i
  {
    if i < |s| {
      FindNone(s, i + 1);
    }
  }

  lemma {:induction false} FindSkips(s: string, i: nat, k: nat)
    requires i <= k <= |s|
    requires forall j :: i <= j < k ==> s[j] != '['
    ensures FindFrom(s, i) == FindFrom(s, k)
    decreases k - i
  {
    if i < k {
      FindSkips(s, i + 1, k);
    }
  }

  /** A directive without a bracket group keeps every default. */
  lemma OptionsWithoutGroup(tag: string)
    requires forall j :: 0 <= j < |tag| ==> tag[j] != '['
    ensures GetOptions(tag) == DefaultConstraints
  {
    FindNone(tag, 0);
  }

  lemma {:induction false} DigitRunOver(u: string, d: string, i: nat)
    requires AllDigits(d) && (u == [] || !IsDigit(u[0]))
    requires i <= |d|
    ensures DigitRun(d + u, i) == |d|
    decreases |d| - i
  {
    if i < |d| {
      assert (d + u)[i] == d[i];
      DigitRunOver(u, d, i + 1);
    }
  }

  lemma {:induction false} DigitRunAt(p: string, d: string, u: string)
    requires AllDigits(d) && (u == [] || !IsDigit(u[0]))
    ensures DigitRun(p + d + u, |p|) == |p| + |d|
  {
    assert p + d + u == p + (d + u);
    DigitRunShift(p, d + u, 0);
    DigitRunOver(u, d, 0);
  }

  lemma {:induction false} DigitRunShift(p: string, t: string, i: nat)
    requires i <= |t|
    ensures DigitRun(p + t, |p| + i) == |p| + DigitRun(t, i)
    decreases |t| - i
  {
    if i < |t| {
      assert (p + t)[|p| + i] == t[i];
      DigitRunShift(p, t, i + 1);
    }
  }

  /** The directive text `p[a;b;c]`. */
  function GroupText(p: string, a: string, b: string, c: string): string
  {
    p + "[" + a + ";" + b + ";" + c + "]"
  }

  /** `s` holds `[a;b;c]` at `i`, up to the closing bracket. */
  predicate GroupAt(s: string, i: nat, a: string, b: string, c: string)
  {
    var ea := i + 1 + |a|;
    var eb := ea + 1 + |b|;
    && |s| == eb + |c| + 2
    && s[i] == '[' && s[ea] == ';' && s[eb] == ';'
    && s[i + 1..ea] == a && s[ea + 1..eb] == b && s[eb + 1..eb + 1 + |c|] == c
    && s[eb + 1 + |c|] == ']'
  }

  lemma {:induction false} MatchOfGroup(p: string, a: string, b: string, c: string)
    requires AllDigits(a) && AllDigits(b) && StepText(c)
    ensures |p| <= |GroupText(p, a, b, c)|
    ensures MatchAt(GroupText(p, a, b, c), |p|) == Some((a, b, c))
  {
    GroupPieces(p, a, b, c);
    MatchOfGroupAt(GroupText(p, a, b, c), |p|, a, b, c);
  }

  /** The pattern matches a well-formed group. */
  lemma {:induction false} MatchOfGroupAt(s: string, i: nat, a: string, b: string, c: string)
    requires AllDigits(a) && AllDigits(b) && StepText(c) && GroupAt(s, i, a, b, c)
    ensures i <= |s| && MatchAt(s, i) == Some((a, b, c))
  {
    var ea := i + 1 + |a|;
    var eb := ea + 1 + |b|;
    RunBetween(s, i + 1, ea, a);
    RunBetween(s, ea + 1, eb, b);
    var e := eb + 1;
    ThirdAt(s, e, c);
    MatchOfPieces(s, i, a, b, c);
  }

  /** Where `s` holds a step text `c` at `e`, followed by ']', the third group runs to that bracket. */
  lemma {:induction false} ThirdAt(s: string, e: nat, c: string)
    requires StepText(c) && e + |c| < |s| && s[e..e + |c|] == c && s[e + |c|] == ']'
    ensures ThirdRun(s, e, c)
  {
    if AllDigits(c) {
      RunBetween(s, e, e + |c|, c);
    } else {
      SliceEnds(s, e, c);
      RunBetween(s, e, e + |c| - 2, c[..|c| - 2]);
    }
  }

  /** Where `s` holds `c` at `e`, it holds all but the last two characters of `c` there too. */
  lemma SliceEnds(s: string, e: nat, c: string)
    requires 2 <= |c| && e + |c| <= |s| && s[e..e + |c|] == c
    ensures s[e..e + |c| - 2] == c[..|c| - 2]
    ensures s[e + |c| - 2] == c[|c| - 2] && s[e + |c| - 1] == c[|c| - 1]
  {
    assert s[e..e + |c| - 2] == s[e..e + |c|][..|c| - 2];
  }

  lemma {:induction false} MatchOfPieces(s: string, i: nat, a: string, b: string, c: string)
    requires StepText(c) && GroupAt(s, i, a, b, c)
    requires DigitRun(s, i + 1) == i + 1 + |a| && DigitRun(s, i + |a| + 2) == i + |a| + |b| + 2
    requires ThirdRun(s, i + |a| + |b| + 3, c)
    ensures MatchAt(s, i) == Some((a, b, c))
  {
  }

  lemma {:induction false} GroupPieces(p: string, a: string, b: string, c: string)
    ensures GroupAt(GroupText(p, a, b, c), |p|, a, b, c)
  {
    var s, i := GroupText(p, a, b, c), |p|;
    var t := "[" + a + ";" + b + ";" + c + "]";
    assert s == p + t;
    assert t[0] == '[' && t[1..1 + |a|] == a && t[1 + |a|] == ';';
    var u := b + ";" + c + "]";
    assert t == "[" + a + ";" + u;
    assert u[..|b|] == b && u[|b|] == ';' && u[|b| + 1..|b| + 1 + |c|] == c && u[|b| + 1 + |c|] == ']';
    assert t[2 + |a|..] == u;
  }

  /** A run of digits `d` between `lo` and a non-digit at `hi`. */
  lemma {:induction false} RunBetween(s: string, lo: nat, hi: nat, d: string)
    requires lo <= hi < |s| && s[lo..hi] == d && AllDigits(d) && !IsDigit(s[hi])
    ensures DigitRun(s, lo) == hi
  {
    assert s == s[..lo] + d + s[hi..];
    assert s[hi..][0] == s[hi];
    DigitRunAt(s[..lo], d, s[hi..]);
  }

  /** The third group `c` starts at `e` and is followed by ']'. */
  predicate ThirdRun(s: string, e: nat, c: string)
    requires StepText(c)
  {
    e <= |s| &&
    var r := DigitRun(s, e);
    if AllDigits(c) then r == e + |c| && r < |s| && s[r] == ']'
    else r + 2 == e + |c| && r + 2 < |s| && s[r] == '.' && IsDigit(s[r + 1]) && s[r + 2] == ']'
  }

  /** Each empty component falls back to its own default and each present one overrides it;
      the text before the group is ignored when it holds no '['. */
  lemma {:induction false} OptionsOfGroup(p: string, a: string, b: string, c: string)
    requires forall j :: 0 <= j < |p| ==> p[j] != '['
    requires AllDigits(a) && AllDigits(b) && StepText(c)
    ensures GetOptions(GroupText(p, a, b, c)) ==
      Constraints(DigitsOption(a, 1), DigitsOption(b, 10),
        if c == [] || StepNumber(c) >= Float32Overflow then 1.0 else StepNumber(c))
  {
    var s := GroupText(p, a, b, c);
    MatchOfGroup(p, a, b, c);
    FindSkips(s, 0, |p|);
    AtoiOfDigits(a);
    AtoiOfDigits(b);
  }

  /** `Atoi` on a group of digits. */
  lemma {:induction false} AtoiOfDigits(t: string)
    requires AllDigits(t)
    ensures Atoi(t).Some? ==> Atoi(t).value == DigitsOption(t, 0)
    ensures Atoi(t).Some? <==> t != [] && Decimal(t) <= MaxInt64
  {
    if t != [] {
      ScanAllDigits(t, 0);
      assert t[..0] == [];
      assert t[0] != '+' && t[0] != '-';
    }
  }

  lemma {:induction false} ScanAllDigits(s: string, i: nat)
    requires AllDigits(s) && i <= |s| && Decimal(s[..i]) <= MaxUint64
    ensures ScanDecimal(s, i, Decimal(s[..i])) ==
      if Decimal(s) <= MaxUint64 then (Decimal(s), None) else (MaxUint64, Some(ErrRange))
    decreases |s| - i
  {
    if i == |s| {
      assert s[..i] == s;
    } else {
      assert s[..i + 1][..i] == s[..i];
      if Decimal(s[..i + 1]) <= MaxUint64 {
        ScanAllDigits(s, i + 1);
      } else {
        DecimalMonotone(s, i + 1);
      }
    }
  }

  /** `rand` alone keeps every default. */
  lemma OptionsOfBareTag()
    ensures GetOptions("rand") == Constraints(1, 10, 1.0)
  {
    OptionsWithoutGroup("rand");
  }

  /** `rand[2;;]` sets only the minimum. */
  lemma OptionsOfMinOnly()
    ensures GetOptions("rand[2;;]") == Constraints(2, 10, 1.0)
  {
    OptionsOfGroup("rand", "2", "", "");
    assert GroupText("rand", "2", "", "") == "rand[2;;]";
  }

  /** `rand[;11;]` sets only the maximum. */
  lemma OptionsOfMaxOnly()
    ensures GetOptions("rand[;11;]") == Constraints(1, 11, 1.0)
  {
    OptionsOfGroup("rand", "", "11", "");
    assert GroupText("rand", "", "11", "") == "rand[;11;]";
  }

  /** `rand[2;11;.5]` sets all three; a step may start with its dot. */
  lemma OptionsOfFullGroup()
    ensures GetOptions("rand[2;11;.5]") == Constraints(2, 11, 0.5)
  {
    OptionsOfGroup("rand", "2", "11", ".5");
    assert GroupText("rand", "2", "11", ".5") == "rand[2;11;.5]";
    assert ".5"[..0] == [];
  }

  // ---- Draws ----

  function Trunc(x: real): int
  {
    if x >= 0.0 then x.Floor else -((-x).Floor)
  }

  /** `randFloat64` on the unit value `u` the source gave: `scale := u*(max-min) + min`, then `(scale - math.Mod(scale, step)) * step`.
      A zero step makes `math.Mod` NaN. Rounding of float64 arithmetic is not modelled. */
  function RandFloat(u: real, c: Constraints): Float
  {
    if c.step == 0.0 then NaN else Num(Stepped(Scale(u, c), c.step))
  }

  /** `u*(max-min) + min`. */
  function Scale(u: real, c: Constraints): real
  {
    u * (c.max - c.min) as real + c.min as real
  }

  /** `(scale - math.Mod(scale, step)) * step`, `math.Mod` keeping the sign of `scale`. */
  function Stepped(scale: real, step: real): real
    requires step != 0.0
  {
    var mod := scale - step * Trunc(scale / step) as real;
    (scale - mod) * step
  }

  /** `int64(f)`: truncation toward zero; NaN and values outside the int64 range give the
      minimum int64, as on amd64. */
  function ToInt64(f: Float): (i: int)
    ensures -(Cutoff as int) <= i <= MaxInt64
  {
    if f.Num? && -(Cutoff as int) <= Trunc(f.x) <= MaxInt64 then Trunc(f.x) else -(Cutoff as int)
  }

  // ---- randString ----

  predicate IsLetter(ch: char) { 'a' <= ch <= 'z' || 'A' <= ch <= 'Z' || '0' <= ch <= '9' }

  predicate AllLetters(s: string) { forall j :: 0 <= j < |s| ==> IsLetter(s[j]) }

  /** `letterBytes[k]`: the table is `a`-`z`, then `A`-`Z`, then `0`-`9`. */
  function Letter(k: nat): (ch: char)
    requires k < 62
    ensures IsLetter(ch)
  {
    if k < 26 then ('a' as int + k) as char
    else if k < 52 then ('A' as int + k - 26) as char
    else ('0' as int + k - 52) as char
  }

  /** The bytes `randString` produces from chunk `c` on while `i + 1` positions remain to be
      written, `suffix` being what is already written behind them; also the chunk after the
      last one read. A usable chunk fills position `i`; an unusable one is skipped. */
  ghost function Letters(s: Stream, c: ChunkPos, i: int, suffix: string): (r: (string, ChunkPos))
    requires Productive(s) && c.Valid() && i >= -1
    ensures |r.0| == |suffix| + i + 1
    ensures r.0[i + 1..] == suffix
    ensures r.1.Valid() && c.Global() <= r.1.Global() && (i >= 0 ==> c.Global() < r.1.Global())
    decreases i + 1, NextUsable(s, c).Global() - c.Global()
  {
    if i < 0 then (suffix, c)
    else if Usable(s, c) then
      Letters(s, c.Advance(), i - 1, [Letter(Chunk(s, c))] + suffix)
    else
      NextUsableSkip(s, c);
      Letters(s, c.Advance(), i, suffix)
  }

  /** Every byte `randString` writes is a letter. */
  lemma {:induction false} LettersAreLetters(s: Stream, c: ChunkPos, i: int, suffix: string)
    requires Productive(s) && c.Valid() && i >= -1 && AllLetters(suffix)
    ensures AllLetters(Letters(s, c, i, suffix).0)
    decreases i + 1, NextUsable(s, c).Global() - c.Global()
  {
    if i < 0 {
    } else if Usable(s, c) {
      var w := [Letter(Chunk(s, c))] + suffix;
      assert AllLetters(w) by {
        forall j | 0 <= j < |w| ensures IsLetter(w[j]) {
          if j > 0 { assert w[j] == suffix[j - 1]; }
        }
      }
      LettersAreLetters(s, c.Advance(), i - 1, w);
    } else {
      NextUsableSkip(s, c);
      LettersAreLetters(s, c.Advance(), i, suffix);
    }
  }

  /** `randString(r, n)` started with `pos` draws taken: the string and the draws taken after it.
      One `Int63` is drawn even when `n` is 0. */
  ghost function RandStringSpec(s: Stream, pos: nat, n: nat): (r: (string, nat))
    requires Productive(s)
    ensures |r.0| == n && AllLetters(r.0)
    ensures pos < r.1
  {
    var l := Letters(s, ChunkPos(pos, 0), n - 1, []);
    LettersAreLetters(s, ChunkPos(pos, 0), n - 1, []);
    (l.0, if n == 0 then pos + 1 else if l.1.index == 0 then l.1.draw else l.1.draw + 1)
  }

  /** The first usable chunk fills the last byte. */
  lemma {:induction false} LastByteFirst(s: Stream, c: ChunkPos, i: int, suffix: string)
    requires Productive(s) && c.Valid() && i >= 0
    ensures Letters(s, c, i, suffix).0[i] == Letter(Chunk(s, NextUsable(s, c)))
    decreases NextUsable(s, c).Global() - c.Global()
  {
    if !Usable(s, c) {
      NextUsableSkip(s, c);
      LastByteFirst(s, c.Advance(), i, suffix);
      GlobalInjective(NextUsable(s, c.Advance()), NextUsable(s, c));
    } else {
      GlobalInjective(NextUsable(s, c), c);
      var r := Letters(s, c.Advance(), i - 1, [Letter(Chunk(s, c))] + suffix);
      assert r.0[i..][0] == r.0[i];
    }
  }

  /** One step of `Letters`: a usable chunk writes a letter in front of the suffix. */
  lemma LettersUsable(s: Stream, c: ChunkPos, i: int, suffix: string)
    requires Productive(s) && c.Valid() && i >= 0 && Usable(s, c)
    ensures Letters(s, c, i, suffix) == Letters(s, c.Advance(), i - 1, [Letter(Chunk(s, c))] + suffix)
  {
  }

  /** One step of `Letters`: an unusable chunk is skipped. */
  lemma LettersUnusable(s: Stream, c: ChunkPos, i: int, suffix: string)
    requires Productive(s) && c.Valid() && i >= 0 && !Usable(s, c)
    ensures Letters(s, c, i, suffix) == Letters(s, c.Advance(), i, suffix)
  {
    NextUsableSkip(s, c);
  }

  /** Where `randString` leaves the source, read off the chunk after the last one it used. */
  lemma RandStringEnd(s: Stream, pos: nat, n: nat, b: string, c: ChunkPos, after: nat)
    requires Productive(s) && (b, c) == Letters(s, ChunkPos(pos, 0), n - 1, [])
    requires after == if n == 0 then pos + 1 else if c.index == 0 then c.draw else c.draw + 1
    ensures RandStringSpec(s, pos, n) == (b, after)
  {
  }

  /** The chunk cursor of `randString`: `cache` holds the `remain` chunks of the current
      draw still unread, the next chunk read being `c`, with `pos` draws taken. */
  ghost predicate Cursor(s: Stream, c: ChunkPos, remain: int, cache: nat, pos: nat)
  {
    && 0 <= remain <= 10 && c.Valid()
    && (remain > 0 ==> pos == c.draw + 1 && c.index == 10 - remain && cache == Shift(Int63Of(s(c.draw)), c.index))
    && (remain == 0 ==> c == ChunkPos(pos, 0))
  }

  /** An exhausted cache is refilled by the next draw. */
  lemma CursorRefill(s: Stream, c: ChunkPos, cache: nat, pos: nat)
    requires Cursor(s, c, 0, cache, pos)
    ensures Cursor(s, c, 10, Int63Of(s(pos)), pos + 1)
  {
  }

  /** The low six bits of the cache are chunk `c`; shifting them out moves to the next chunk. */
  lemma CursorRead(s: Stream, c: ChunkPos, remain: int, cache: nat, pos: nat)
    requires Cursor(s, c, remain, cache, pos) && remain > 0
    ensures cache % 64 == Chunk(s, c)
    ensures Cursor(s, c.Advance(), remain - 1, cache / 64, pos)
  {
  }

  /** Writing `x` just in front of the written tail `done` extends that tail by `x`. */
  lemma WriteInFront(cells: string, i: nat, x: char, done: string)
    requires i < |cells| && cells[i + 1..] == done
    ensures cells[i := x][i..] == [x] + done
  {
    assert cells[i := x][i + 1..] == cells[i + 1..];
  }

  /** `randString`: one `Int63` supplies ten 6-bit chunks; a chunk below 62 indexes a letter,
      written from the end of the buffer towards its front. */
  method RandString(r: Rand, n: nat) returns (b: string)
    requires r.Valid()
    modifies r
    ensures (b, r.pos) == RandStringSpec(r.stream, old(r.pos), n)
  {
    ghost var p0 := r.pos;
    ghost var s := r.stream;
    var buf := new char[n];
    var i: int := n - 1;
    var cache := r.Int63();
    var remain := 10;
    ghost var c := ChunkPos(p0, 0);
    ghost var spec := Letters(s, c, n - 1, []);
    ghost var done: string := [];
    while i >= 0
      invariant -1 <= i < n && r.pos >= p0 + 1 && Cursor(s, c, remain, cache, r.pos)
      invariant i < n - 1 ==> remain < 10 && r.pos == if c.index == 0 then c.draw else c.draw + 1
      invariant n == 0 ==> r.pos == p0 + 1
      invariant buf[i + 1..] == done && spec == Letters(s, c, i, done)
      decreases spec.1.Global() - c.Global()
    {
      if remain == 0 {
        CursorRefill(s, c, cache, r.pos);
        cache := r.Int63();
        remain := 10;
      }
      var idx := cache % 64;
      CursorRead(s, c, remain, cache, r.pos);
      if idx < 62 {
        LettersUsable(s, c, i, done);
        ghost var cells := buf[..];
        buf[i] := Letter(idx);
        assert buf[..] == cells[i := Letter(idx)];
        WriteInFront(cells, i, Letter(idx), done);
        done := [Letter(idx)] + done;
        i := i - 1;
      } else {
        LettersUnusable(s, c, i, done);
      }
      cache := cache / 64;
      remain := remain - 1;
      c := c.Advance();
    }
    b := buf[..];
    assert b == done;
    RandStringEnd(s, p0, n, b, c, r.pos);
  }

  // ---- fillRandomSimple ----

  /** `randFloat64`: one `Float64` draw. */
  method RandFloat64(r: Rand, c: Constraints) returns (f: Float)
    modifies r
    ensures f == RandFloat(UnitOf(r.stream(old(r.pos))), c) && r.pos == old(r.pos) + 1
  {
    var u := r.Float64();
    f := RandFloat(u, c);
  }

  /** `randInt64`: `randFloat64` converted to int64. */
  method RandInt64(r: Rand, c: Constraints) returns (i: int)
    modifies r
    ensures i == ToInt64(RandFloat(UnitOf(r.stream(old(r.pos))), c)) && r.pos == old(r.pos) + 1
  {
    var f := RandFloat64(r, c);
    i := ToInt64(f);
  }

  /** `fillRandomSimple` on a field of kind `kind` tagged `tag`, the shared source having
      given `pos` draws: the value to store or the error, and the draws taken after it. */
  ghost function FillRandom(s: Stream, pos: nat, kind: Kind, tag: string): (r: Step<Value>)
    requires Productive(s)
    ensures pos <= r.next
    ensures r.res.Ok? ==> Fits(kind, r.res.value)
  {
    var c := GetOptions(tag);
    var v := Validate(c, kind);
    var x := RandFloat(UnitOf(s(pos)), c);
    if v.Fail? then Step(Err(v.msg), pos)
    else if IsSigned(kind) then Step(Ok(IntV(WrapSigned(ToInt64(x), Bits(kind)))), pos + 1)
    else if IsUnsigned(kind) then Step(Ok(UintV(WrapUnsigned(ToInt64(x), Bits(kind)))), pos + 1)
    else if IsFloat(kind) then Step(Ok(FloatV(x)), pos + 1)
    else if IsComplex(kind) then Step(Ok(ComplexV(x, RandFloat(UnitOf(s(pos + 1)), c))), pos + 2)
    else if kind == String then
      var n := ToInt64(x);
      if n < 0 then Step(Panic, pos + 1)
      else
        var b := RandStringSpec(s, pos + 1, n);
        Step(Ok(StrV(b.0)), b.1)
    else if kind == Bool then Step(Ok(BoolV(UnitOf(s(pos)) < 0.5)), pos + 1)
    else Step(Err("kind not supported: " + Name(kind)), pos)
  }

  /** The kinds `fillRandomSimple` has a draw for. */
  predicate Drawn(kind: Kind)
  {
    IsSigned(kind) || IsUnsigned(kind) || IsFloat(kind) || IsComplex(kind) || kind == String || kind == Bool
  }

  /** `fillRandomSimple` validates before it draws: constraints `Validate` rejects give its
      error with no draw taken, and a kind it has no draw for is refused by name, also with
      no draw taken. */
  lemma FillRandomChecksFirst(s: Stream, pos: nat, kind: Kind, tag: string)
    requires Productive(s)
    ensures var v := Validate(GetOptions(tag), kind);
      v.Fail? ==> FillRandom(s, pos, kind, tag) == Step(Err(v.msg), pos)
    ensures Validate(GetOptions(tag), kind).Pass? && !Drawn(kind) ==>
      FillRandom(s, pos, kind, tag) == Step(Err("kind not supported: " + Name(kind)), pos)
  {}

  /** `fillRandomSimple(r, field, tag)`: validates the options before drawing anything, then
      draws by the field's kind. `make([]byte, n)` panics on a negative length. */
  method FillRandomSimple(r: Rand, kind: Kind, tag: string) returns (res: Result<Value>)
    requires r.Valid()
    modifies r
    ensures Step(res, r.pos) == FillRandom(r.stream, old(r.pos), kind, tag)
  {
    var c := GetOptions(tag);
    var v := Validate(c, kind);
    if v.Fail? {
      return Err(v.msg);
    }
    if IsSigned(kind) {
      var i := RandInt64(r, c);
      res := Ok(IntV(WrapSigned(i, Bits(kind))));
    } else if IsUnsigned(kind) {
      var i := RandInt64(r, c);
      res := Ok(UintV(WrapUnsigned(i, Bits(kind))));
    } else if IsFloat(kind) {
      var f := RandFloat64(r, c);
      res := Ok(FloatV(f));
    } else if IsComplex(kind) {
      var re := RandFloat64(r, c);
      var im := RandFloat64(r, c);
      res := Ok(ComplexV(re, im));
    } else if kind == String {
      var n := RandInt64(r, c);
      if n < 0 {
        return Panic;
      }
      var b := RandString(r, n);
      res := Ok(StrV(b));
    } else if kind == Bool {
      var u := r.Float64();
      res := Ok(BoolV(u < 0.5));
    } else {
      res := Err("kind not supported: " + Name(kind));
    }
  }

  /** With a step of 1, `randFloat64` truncates `scale`, which lies between the bounds. */
  lemma {:induction false} WholeStepDraw(u: real, c: Constraints)
    requires 0.0 <= u < 1.0 && 0 <= c.min <= c.max && c.step == 1.0
    ensures var x := RandFloat(u, c);
      x.Num? && x.x == x.x.Floor as real && c.min <= x.x.Floor <= c.max &&
      (c.min < c.max ==> x.x.Floor < c.max)
  {
    ScaleBetween(u, c.min, c.max);
    FloorBetween(Scale(u, c), c.min, c.max);
    UnitStepTruncates(Scale(u, c));
  }

  /** `u*(hi-lo) + lo` lies in [lo, hi], and below `hi` when `lo < hi`. */
  lemma ScaleBetween(u: real, lo: int, hi: int)
    requires 0.0 <= u < 1.0 && lo <= hi
    ensures var scale := u * (hi - lo) as real + lo as real;
      lo as real <= scale <= hi as real && (lo < hi ==> scale < hi as real)
  {
    var d := (hi - lo) as real;
    assert 0.0 <= u * d;
    assert u * d <= 1.0 * d;
    if lo < hi {
      assert u * d < 1.0 * d;
    }
  }

  /** A real within integer bounds has its floor within the same bounds. */
  lemma FloorBetween(x: real, lo: int, hi: int)
    requires lo as real <= x <= hi as real
    ensures lo <= x.Floor <= hi && (x < hi as real ==> x.Floor < hi)
  {}

  /** With a step of 1, the step arithmetic of `randFloat64` leaves the floor of a
      non-negative `scale`. */
  lemma UnitStepTruncates(scale: real)
    requires scale >= 0.0
    ensures Stepped(scale, 1.0) == scale.Floor as real
  {
    assert scale / 1.0 == scale;
  }

  /** An int64 field tagged with a whole step of 1 gets a value between the bounds, below
      the maximum unless the bounds coincide. */
  lemma RandomIntWithinBounds(s: Stream, pos: nat, kind: Kind, tag: string)
    requires Productive(s) && (kind == Int || kind == Int64)
    requires GetOptions(tag).step == 1.0 && GetOptions(tag).min <= GetOptions(tag).max
    ensures var c, r := GetOptions(tag), FillRandom(s, pos, kind, tag);
      r.res.Ok? && r.res.value.IntV? && c.min <= r.res.value.i <= c.max &&
      (c.min < c.max ==> r.res.value.i < c.max) && r.next == pos + 1
  {
    var c := GetOptions(tag);
    WholeStepDraw(UnitOf(s(pos)), c);
    var x := RandFloat(UnitOf(s(pos)), c);
    var n := x.x.Floor;
    assert Trunc(x.x) == n;
    assert ToInt64(x) == n;
    assert Validate(c, kind) == Pass;
    assert Bits(kind) == 64;
    Pow2Widths();
    assert WrapSigned(n, 64) == n;
    assert FillRandom(s, pos, kind, tag) == Step(Ok(IntV(n)), pos + 1);
  }

  /** A string field gets only letters. */
  lemma RandomStringIsLetters(s: Stream, pos: nat, tag: string)
    requires Productive(s)
    ensures var r := FillRandom(s, pos, String, tag);
      r.res.Ok? ==> r.res.value.StrV? && AllLetters(r.res.value.s)
  {
  }
}
