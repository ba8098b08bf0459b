/** The dispatcher: a `Maker` turns a record's shape and `gomaker` tags into a plan, then walks
    the record along the plan and fills every planned field with the engine its tag names. */
module GoMaker {
  import opened Wrappers
  import opened Kinds
  import opened Strings
  import opened Entropy
  import opened RandomMaker
  import opened RegexMaker
  import opened FuncMaker

  // ---- Records and plans ----

  /** A value as reflection sees it: a struct, a slice (with the kind of its element type), a
      value of any other kind, or the zero `reflect.Value` that `FieldByName` returns for a
      name the struct does not have. */
  datatype Rec =
    | RStruct(fields: seq<Field>)
    | RSlice(elemKind: Kind, items: seq<Rec>)
    | RScalar(kind: Kind, value: Value)
    | RZero

  /** A struct field: its name, whether it is exported, the value of its `gomaker` tag key
      (empty when the tag has none) and its value. */
  datatype Field = Field(name: string, exported: bool, tag: string, val: Rec)

  /** A value of a plan map (`map[string]any`): a tag string, a nested map, a value of another
      dynamic kind, or nil. */
  datatype Plan = Tag(tag: string) | Node(entries: seq<Entry>) | Other(kind: Kind) | NilVal

  /** One key of a plan map; the order of the entries stands for one iteration order of the map. */
  datatype Entry = Entry(key: string, val: Plan)

  /** `Value.Kind()`. */
  function KindOf(v: Rec): Kind
  {
    match v
    case RStruct(_) => Struct
    case RSlice(_, _) => Slice
    case RScalar(k, _) => k
    case RZero => Invalid
  }

  /** The largest of some naturals (0 for none). */
  function MaxOf(s: seq<nat>): (m: nat)
    ensures forall i :: 0 <= i < |s| ==> s[i] <= m
  {
    if s == [] then 0
    else
      var m := MaxOf(s[1..]);
      assert forall i :: 1 <= i < |s| ==> s[i] == s[1..][i - 1];
      if s[0] > m then s[0] else m
  }

  /** How deeply structs and slices nest in a value; the recursive fillers descend along it. */
  function Height(v: Rec): nat
  {
    match v
    case RStruct(fs) => 1 + MaxOf(seq(|fs|, i requires 0 <= i < |fs| => Height(fs[i].val)))
    case RSlice(_, xs) => 1 + MaxOf(seq(|xs|, i requires 0 <= i < |xs| => Height(xs[i])))
    case _ => 0
  }

  lemma FieldLower(fs: seq<Field>, k: nat)
    requires k < |fs|
    ensures Height(fs[k].val) < Height(RStruct(fs))
  {
    var hs := seq(|fs|, i requires 0 <= i < |fs| => Height(fs[i].val));
    assert hs[k] == Height(fs[k].val);
  }

  lemma ItemLower(e: Kind, xs: seq<Rec>, j: nat)
    requires j < |xs|
    ensures Height(xs[j]) < Height(RSlice(e, xs))
  {
    var hs := seq(|xs|, i requires 0 <= i < |xs| => Height(xs[i]));
    assert hs[j] == Height(xs[j]);
  }

  /** `a` is `b` with at most some scalars written: the same kinds, fields (names, export, tags)
      and slice lengths, and every scalar either as it was or holding a value that fits its
      kind. Filling never changes more. */
  predicate Grown(a: Rec, b: Rec)
  {
    match a
    case RStruct(fa) =>
      b.RStruct? && |fa| == |b.fields| &&
      forall i :: 0 <= i < |fa| ==> GrownField(fa[i], b.fields[i])
    case RSlice(ea, xa) =>
      b.RSlice? && ea == b.elemKind && |xa| == |b.items| &&
      forall i :: 0 <= i < |xa| ==> Grown(xa[i], b.items[i])
    case RScalar(ka, xa) => b.RScalar? && b.kind == ka && (xa == b.value || Fits(ka, xa))
    case RZero => b.RZero?
  }

  predicate GrownField(f: Field, g: Field)
  {
    f.name == g.name && f.exported == g.exported && f.tag == g.tag && Grown(f.val, g.val)
  }

  lemma {:induction false} GrownRefl(a: Rec)
    ensures Grown(a, a)
  {
    match a
    case RStruct(fa) =>
      forall i | 0 <= i < |fa| ensures GrownField(fa[i], fa[i]) { GrownRefl(fa[i].val); }
    case RSlice(_, xa) =>
      forall i | 0 <= i < |xa| ensures Grown(xa[i], xa[i]) { GrownRefl(xa[i]); }
    case _ =>
  }

  lemma {:induction false} GrownTrans(a: Rec, b: Rec, c: Rec)
    requires Grown(a, b) && Grown(b, c)
    ensures Grown(a, c)
  {
    match a
    case RStruct(fa) =>
      forall i | 0 <= i < |fa| ensures GrownField(fa[i], c.fields[i]) {
        GrownTrans(fa[i].val, b.fields[i].val, c.fields[i].val);
      }
    case RSlice(_, xa) =>
      forall i | 0 <= i < |xa| ensures Grown(xa[i], c.items[i]) {
        GrownTrans(xa[i], b.items[i], c.items[i]);
      }
    case _ =>
  }

  /** Values of the same shape nest equally deep. */
  lemma {:induction false} GrownHeight(a: Rec, b: Rec)
    requires Grown(a, b)
    ensures Height(a) == Height(b)
  {
    match a
    case RStruct(fa) =>
      var ha := seq(|fa|, i requires 0 <= i < |fa| => Height(fa[i].val));
      var hb := seq(|b.fields|, i requires 0 <= i < |b.fields| => Height(b.fields[i].val));
      forall i | 0 <= i < |fa| ensures ha[i] == hb[i] {
        GrownHeight(fa[i].val, b.fields[i].val);
      }
      assert ha == hb;
    case RSlice(_, xa) =>
      var ha := seq(|xa|, i requires 0 <= i < |xa| => Height(xa[i]));
      var hb := seq(|b.items|, i requires 0 <= i < |b.items| => Height(b.items[i]));
      forall i | 0 <= i < |xa| ensures ha[i] == hb[i] {
        GrownHeight(xa[i], b.items[i]);
      }
      assert ha == hb;
    case _ =>
  }

  /** Replacing a field's value by one of the same shape keeps the struct's shape. */
  lemma SetFieldShape(fs: seq<Field>, k: nat, x: Rec)
    requires k < |fs| && Grown(x, fs[k].val)
    ensures Grown(RStruct(fs[k := fs[k].(val := x)]), RStruct(fs))
    ensures Height(RStruct(fs[k := fs[k].(val := x)])) == Height(RStruct(fs))
  {
    var gs := fs[k := fs[k].(val := x)];
    forall i | 0 <= i < |fs| ensures GrownField(gs[i], fs[i]) {
      if i != k { GrownRefl(fs[i].val); }
    }
    GrownHeight(RStruct(gs), RStruct(fs));
  }

  /** Replacing an element by one of the same shape keeps the slice's shape. */
  lemma SetItemShape(e: Kind, xs: seq<Rec>, j: nat, x: Rec)
    requires j < |xs| && Grown(x, xs[j])
    ensures Grown(RSlice(e, xs[j := x]), RSlice(e, xs))
    ensures Height(RSlice(e, xs[j := x])) == Height(RSlice(e, xs))
  {
    forall i | 0 <= i < |xs| ensures Grown(xs[j := x][i], xs[i]) {
      if i != j { GrownRefl(xs[i]); }
    }
    GrownHeight(RSlice(e, xs[j := x]), RSlice(e, xs));
  }

  // ---- Dispatch ----

  const RandOption: string := "rand"
  const RegexOption: string := "regex"
  const RelOption: string := "rel"
  const FuncOption: string := "func"

  /** `optionValueOf`: the first of `rand`, `regex` and `func` the tag starts with, otherwise
      the empty option. `rel` is declared but never returned. */
  function OptionValueOf(tag: string): (o: string)
    ensures o == RandOption <==> HasPrefix(tag, RandOption)
    ensures o == RegexOption <==> !HasPrefix(tag, RandOption) && HasPrefix(tag, RegexOption)
    ensures o == FuncOption <==>
      !HasPrefix(tag, RandOption) && !HasPrefix(tag, RegexOption) && HasPrefix(tag, FuncOption)
    ensures o == [] <==>
      !HasPrefix(tag, RandOption) && !HasPrefix(tag, RegexOption) && !HasPrefix(tag, FuncOption)
    ensures o != RelOption
  {
    if HasPrefix(tag, RandOption) then RandOption
    else if HasPrefix(tag, RegexOption) then RegexOption
    else if HasPrefix(tag, FuncOption) then FuncOption
    else []
  }

  /** What the filler calls cannot see: the function map's delegates (each as the string it
      returns), `strconv.ParseFloat`/`ParseComplex`, and `syntax.Parse` followed by `Simplify`. */
  datatype Env = Env(funcs: map<string, string>, fp: FloatParsers, parse: string -> Option<Regex>)

  /** `fillSimple` on a value of kind `KindOf(v)`: the value its engine produces, or the error. */
  ghost function SimpleFill(env: Env, s: Stream, v: Rec, tag: string, pos: nat): (r: Step<Value>)
    requires Productive(s)
    ensures pos <= r.next
    ensures OptionValueOf(tag) == [] ==> r == Step(Err("option not available " + tag), pos)
    ensures OptionValueOf(tag) == RandOption ==> r == FillRandom(s, pos, KindOf(v), tag)
    ensures OptionValueOf(tag) == RegexOption ==> r == FillRegex(s, pos, env.parse, KindOf(v), tag)
    ensures OptionValueOf(tag) == FuncOption ==> r == Step(FillFunc(env.funcs, env.fp, KindOf(v), tag), pos)
    ensures r.res.Ok? ==> Fits(KindOf(v), r.res.value)
  {
    var opt := OptionValueOf(tag);
    if opt == RandOption then FillRandom(s, pos, KindOf(v), tag)
    else if opt == RegexOption then FillRegex(s, pos, env.parse, KindOf(v), tag)
    else if opt == FuncOption then Step(FillFunc(env.funcs, env.fp, KindOf(v), tag), pos)
    else Step(Err("option not available " + tag), pos)
  }

  /** The outcome of a fill, the value after it, and the draws taken. */
  datatype Filled = Filled(out: Outcome, rec: Rec, next: nat)

  /** The `Set` call that stores a produced value: it panics on a value reached through an
      unexported field (or on the zero value, which only a missing field gives). */
  function Store(v: Rec, settable: bool, st: Step<Value>): (r: Filled)
    requires st.res.Ok? && v.RScalar? ==> Fits(v.kind, st.res.value)
    ensures Grown(r.rec, v) && r.next == st.next
    ensures r.out.Pass? <==> st.res.Ok? && settable && v.RScalar?
    ensures r.out.Pass? ==> r.rec == RScalar(v.kind, st.res.value)
    ensures !r.out.Pass? ==> r.rec == v
    ensures st.res.Err? ==> r.out == Fail(st.res.msg)
  {
    GrownRefl(v);
    match st.res
    case Ok(x) => if settable && v.RScalar? then Filled(Pass, RScalar(v.kind, x), st.next) else Filled(Crash, v, st.next)
    case Err(m) => Filled(Fail(m), v, st.next)
    case Panic => Filled(Crash, v, st.next)
  }

  /** `FieldByName` on a struct: the index of the field named `key`, or -1. */
  function Lookup(fs: seq<Field>, key: string): (k: int)
    ensures -1 <= k < |fs|
    ensures k >= 0 ==> fs[k].name == key && forall i :: 0 <= i < k ==> fs[i].name != key
    ensures k < 0 ==> forall i :: 0 <= i < |fs| ==> fs[i].name != key
  {
    if fs == [] then -1
    else if fs[0].name == key then 0
    else
      var k := Lookup(fs[1..], key);
      assert forall i :: 1 <= i < |fs| ==> fs[i] == fs[1..][i - 1];
      if k < 0 then -1 else k + 1
  }

  /** `key` is a key of the plan from its `i`-th entry on. */
  predicate KeyFrom(plan: seq<Entry>, i: nat, key: string)
  {
    exists j :: i <= j < |plan| && plan[j].key == key
  }

  lemma KeyFromNext(plan: seq<Entry>, i: nat, key: string)
    requires i < |plan|
    ensures KeyFrom(plan, i + 1, key) ==> KeyFrom(plan, i, key)
    ensures KeyFrom(plan, i, plan[i].key)
  {
    if KeyFrom(plan, i + 1, key) {
      var j :| i + 1 <= j < |plan| && plan[j].key == key;
    }
  }

  // ---- fillStruct and fillSlice ----

  /** A tag entry applied to a slice hands the whole slice to `fillSlice` and returns what it
      returns: the walk over the plan ends there, whatever the outcome. */
  predicate EndsWalk(v: Rec, e: Entry)
  {
    e.val.Tag? && v.RSlice?
  }

  /** `fillStruct(r, v, plan)` from the plan's `i`-th entry on, `pos` draws taken: each entry
      in turn, until one fails or ends the walk. What was written stays written. Only fields
      the plan names change, and the record keeps its shape. */
  ghost function StructFill(env: Env, s: Stream, v: Rec, settable: bool, plan: seq<Entry>, i: nat, pos: nat): (r: Filled)
    requires Productive(s) && i <= |plan|
    ensures pos <= r.next && Grown(r.rec, v)
    ensures v.RStruct? ==> forall k :: 0 <= k < |v.fields| && !KeyFrom(plan, i, v.fields[k].name) ==>
      r.rec.fields[k] == v.fields[k]
    decreases Height(v), 1, |plan| - i
  {
    GrownRefl(v);
    if i == |plan| then Filled(Pass, v, pos)
    else
      var e := EntryFill(env, s, v, settable, plan, i, pos);
      if EndsWalk(v, plan[i]) || !e.out.Pass? then e
      else
        GrownHeight(e.rec, v);
        var r := StructFill(env, s, e.rec, settable, plan, i + 1, e.next);
        GrownTrans(r.rec, e.rec, v);
        FrameStep(r.rec, e.rec, v, plan, i);
        r
  }

  /** The fields a later entry leaves alone and the fields this entry leaves alone: together,
      the fields no entry from the `i`-th on names. */
  lemma FrameStep(r: Rec, w: Rec, v: Rec, plan: seq<Entry>, i: nat)
    requires i < |plan| && v.RStruct? && Grown(w, v) && Grown(r, w)
    requires forall k :: 0 <= k < |v.fields| && v.fields[k].name != plan[i].key ==> w.fields[k] == v.fields[k]
    requires forall k :: 0 <= k < |w.fields| && !KeyFrom(plan, i + 1, w.fields[k].name) ==> r.fields[k] == w.fields[k]
    ensures forall k :: 0 <= k < |v.fields| && !KeyFrom(plan, i, v.fields[k].name) ==> r.fields[k] == v.fields[k]
  {
    forall k | 0 <= k < |v.fields| && !KeyFrom(plan, i, v.fields[k].name)
      ensures r.fields[k] == v.fields[k]
    {
      KeyFromNext(plan, i, v.fields[k].name);
    }
  }

  /** The `i`-th entry of `fillStruct`'s loop on `v`: a tag entry on a slice is `fillSlice` on
      the whole slice; on a struct it fills the field of that name (a struct field with the
      whole plan again, a slice field element by element, any other with `fillSimple`); a
      nested map fills the field of that name with it. Only the field the entry names changes,
      and a scalar field a passing tag entry names holds a value of its kind. */
  ghost function EntryFill(env: Env, s: Stream, v: Rec, settable: bool, plan: seq<Entry>, i: nat, pos: nat): (r: Filled)
    requires Productive(s) && i < |plan|
    ensures pos <= r.next && Grown(r.rec, v)
    ensures v.RStruct? ==> forall k :: 0 <= k < |v.fields| && v.fields[k].name != plan[i].key ==>
      r.rec.fields[k] == v.fields[k]
    ensures v.RStruct? && plan[i].val.Tag? && r.out.Pass? ==>
      var k := Lookup(v.fields, plan[i].key);
      0 <= k && (r.rec.fields[k].val.RScalar? ==> Fits(r.rec.fields[k].val.kind, r.rec.fields[k].val.value))
    decreases Height(v), 1, |plan| - i, 0
  {
    GrownRefl(v);
    var e := plan[i];
    match e.val
    case Tag(tag) =>
      if v.RSlice? then SliceFill(env, s, v, settable, tag, plan, 0, pos)
      else if !v.RStruct? then Filled(Crash, v, pos)
      else
        var k := Lookup(v.fields, e.key);
        if k < 0 then
          // the zero value is never settable, so a missing field always stops the walk
          var st := Store(RZero, false, SimpleFill(env, s, RZero, tag, pos));
          Filled(st.out, v, st.next)
        else
          var f := v.fields[k];
          FieldLower(v.fields, k);
          var sub := FieldFill(env, s, f.val, settable && f.exported, tag, plan, pos);
          SetFieldShape(v.fields, k, sub.rec);
          Filled(sub.out, RStruct(v.fields[k := f.(val := sub.rec)]), sub.next)
    case Node(entries) =>
      if !v.RStruct? then Filled(Crash, v, pos)
      else
        var k := Lookup(v.fields, e.key);
        if k < 0 then
          var sub := StructFill(env, s, RZero, false, entries, 0, pos);
          Filled(sub.out, v, sub.next)
        else
          var f := v.fields[k];
          FieldLower(v.fields, k);
          var sub := StructFill(env, s, f.val, settable && f.exported, entries, 0, pos);
          SetFieldShape(v.fields, k, sub.rec);
          Filled(sub.out, RStruct(v.fields[k := f.(val := sub.rec)]), sub.next)
    case Other(kind) =>
      if kind == String || kind == Map then Filled(Crash, v, pos)
      else Filled(Fail("unrecognized type " + Name(kind)), v, pos)
    case NilVal => Filled(Crash, v, pos)
  }

  /** A field a tag entry names: a struct is filled with the whole plan again, a slice element
      by element, anything else with `fillSimple`. A scalar that passes holds a value of its
      kind. */
  ghost function FieldFill(env: Env, s: Stream, x: Rec, settable: bool, tag: string, plan: seq<Entry>, pos: nat): (r: Filled)
    requires Productive(s)
    ensures pos <= r.next && Grown(r.rec, x)
    ensures x.RScalar? && r.out.Pass? ==> Fits(x.kind, r.rec.value)
    decreases Height(x), 2
  {
    if x.RStruct? then StructFill(env, s, x, settable, plan, 0, pos)
    else if x.RSlice? then SliceFill(env, s, x, settable, tag, plan, 0, pos)
    else Store(x, settable, SimpleFill(env, s, x, tag, pos))
  }

  /** `fillSlice(r, tag, v, plan)` from the `j`-th element on: each element in index order,
      until one fails; the elements are filled independently of one another. */
  ghost function SliceFill(env: Env, s: Stream, v: Rec, settable: bool, tag: string, plan: seq<Entry>, j: nat, pos: nat): (r: Filled)
    requires Productive(s) && v.RSlice? && j <= |v.items|
    ensures pos <= r.next && Grown(r.rec, v) && r.rec.RSlice? && |r.rec.items| == |v.items|
    decreases Height(v), 0, |v.items| - j
  {
    GrownRefl(v);
    if j == |v.items| then Filled(Pass, v, pos)
    else
      ItemLower(v.elemKind, v.items, j);
      var sub := ItemFill(env, s, v.items[j], settable, tag, plan, pos);
      SetItemShape(v.elemKind, v.items, j, sub.rec);
      var w := RSlice(v.elemKind, v.items[j := sub.rec]);
      if !sub.out.Pass? then Filled(sub.out, w, sub.next)
      else
        var r := SliceFill(env, s, w, settable, tag, plan, j + 1, sub.next);
        GrownTrans(r.rec, w, v);
        r
  }

  /** One element of `fillSlice`: a struct is filled with the plan, anything else with
      `fillSimple` and the tag. A scalar that passes holds a value of its kind. */
  ghost function ItemFill(env: Env, s: Stream, x: Rec, settable: bool, tag: string, plan: seq<Entry>, pos: nat): (r: Filled)
    requires Productive(s)
    ensures pos <= r.next && Grown(r.rec, x)
    ensures x.RScalar? && r.out.Pass? ==> r.rec.RScalar? && Fits(x.kind, r.rec.value)
    decreases Height(x), 2
  {
    if x.RStruct? then StructFill(env, s, x, settable, plan, 0, pos)
    else Store(x, settable, SimpleFill(env, s, x, tag, pos))
  }

  /** On a struct no entry ends the walk: a passing walk is a passing entry followed by the
      walk from the next entry. */
  lemma StructFillStep(env: Env, s: Stream, v: Rec, settable: bool, plan: seq<Entry>, i: nat, pos: nat)
    requires Productive(s) && i < |plan| && v.RStruct?
    requires StructFill(env, s, v, settable, plan, i, pos).out.Pass?
    ensures var e := EntryFill(env, s, v, settable, plan, i, pos);
      e.out.Pass? && e.rec.RStruct? &&
      StructFill(env, s, v, settable, plan, i, pos) == StructFill(env, s, e.rec, settable, plan, i + 1, e.next)
  {}

  // ---- The first failure stops the walk ----

  /** The entries `i` to `m - 1` each pass without ending the walk, taking it from `v` with
      `pos` draws to `w` with `p`. */
  ghost predicate PassedEntries(env: Env, s: Stream, settable: bool, plan: seq<Entry>, i: nat, m: nat, v: Rec, pos: nat, w: Rec, p: nat)
    requires Productive(s) && i <= m <= |plan|
    decreases m - i
  {
    if i == m then w == v && p == pos
    else
      var e := EntryFill(env, s, v, settable, plan, i, pos);
      e.out.Pass? && !EndsWalk(v, plan[i]) && PassedEntries(env, s, settable, plan, i + 1, m, e.rec, e.next, w, p)
  }

  /** `fillStruct` returns the outcome of the first entry that fails (or ends the walk), after
      every earlier entry passed; what they wrote is kept, and when none fails it passes with
      every entry applied. */
  lemma StructFillStopsAtFirstFailure(env: Env, s: Stream, v: Rec, settable: bool, plan: seq<Entry>, i: nat, pos: nat)
    requires Productive(s) && i <= |plan|
    ensures var r := StructFill(env, s, v, settable, plan, i, pos);
      exists m, w, p :: i <= m <= |plan| && PassedEntries(env, s, settable, plan, i, m, v, pos, w, p) &&
        (m == |plan| ==> r == Filled(Pass, w, p)) &&
        (m < |plan| ==> r == EntryFill(env, s, w, settable, plan, m, p) && (EndsWalk(w, plan[m]) || !r.out.Pass?))
  {
    StopsAt(env, s, v, settable, plan, i, pos, StructFill(env, s, v, settable, plan, i, pos));
  }

  lemma {:induction false} StopsAt(env: Env, s: Stream, v: Rec, settable: bool, plan: seq<Entry>, i: nat, pos: nat, r: Filled)
    requires Productive(s) && i <= |plan| && r == StructFill(env, s, v, settable, plan, i, pos)
    ensures exists m, w, p :: Stop(env, s, settable, plan, i, v, pos, r, m, w, p)
    decreases |plan| - i
  {
    if i == |plan| || EndsWalk(v, plan[i]) || !EntryFill(env, s, v, settable, plan, i, pos).out.Pass? {
      StopsHere(env, s, v, settable, plan, i, pos);
      assert Stop(env, s, settable, plan, i, v, pos, r, i, v, pos);
    } else {
      var w, p := GoesOn(env, s, v, settable, plan, i, pos);
      StopsAt(env, s, w, settable, plan, i + 1, p, r);
      var m, w', p' :| Stop(env, s, settable, plan, i + 1, w, p, r, m, w', p');
      assert Stop(env, s, settable, plan, i, v, pos, r, m, w', p');
    }
  }

  /** The walk from the `i`-th entry on, started on `v` with `pos` draws taken, returns `r`:
      the entries before the `m`-th passed, taking it to `w` with `p` draws, and `r` is the
      outcome at the `m`-th (or the pass past the last). */
  ghost predicate Stop(env: Env, s: Stream, settable: bool, plan: seq<Entry>, i: nat, v: Rec, pos: nat, r: Filled, m: nat, w: Rec, p: nat)
    requires Productive(s)
  {
    i <= m <= |plan| && PassedEntries(env, s, settable, plan, i, m, v, pos, w, p) &&
    (m == |plan| ==> r == Filled(Pass, w, p)) &&
    (m < |plan| ==> r == EntryFill(env, s, w, settable, plan, m, p) && (EndsWalk(w, plan[m]) || !r.out.Pass?))
  }

  /** Where the walk stops: past the last entry, or at an entry that fails or ends it. */
  lemma StopsHere(env: Env, s: Stream, v: Rec, settable: bool, plan: seq<Entry>, i: nat, pos: nat)
    requires Productive(s) && i <= |plan|
    requires i == |plan| || EndsWalk(v, plan[i]) || !EntryFill(env, s, v, settable, plan, i, pos).out.Pass?
    ensures PassedEntries(env, s, settable, plan, i, i, v, pos, v, pos)
    ensures i == |plan| ==> StructFill(env, s, v, settable, plan, i, pos) == Filled(Pass, v, pos)
    ensures i < |plan| ==> StructFill(env, s, v, settable, plan, i, pos) == EntryFill(env, s, v, settable, plan, i, pos)
  {}

  /** Where the walk goes on: the entry passes, and the walk continues from what it left. */
  lemma GoesOn(env: Env, s: Stream, v: Rec, settable: bool, plan: seq<Entry>, i: nat, pos: nat) returns (w: Rec, p: nat)
    requires Productive(s) && i < |plan|
    requires !EndsWalk(v, plan[i]) && EntryFill(env, s, v, settable, plan, i, pos).out.Pass?
    ensures StructFill(env, s, v, settable, plan, i, pos) == StructFill(env, s, w, settable, plan, i + 1, p)
    ensures forall m, w', p' :: i + 1 <= m <= |plan| && PassedEntries(env, s, settable, plan, i + 1, m, w, p, w', p') ==>
      PassedEntries(env, s, settable, plan, i, m, v, pos, w', p')
  {
    var e := EntryFill(env, s, v, settable, plan, i, pos);
    w, p := e.rec, e.next;
  }

  /** The elements `j` to `m - 1` of `xs` each pass, one after the other from `pos` draws to
      `p`, and `ys` holds what they became. */
  ghost predicate PassedItems(env: Env, s: Stream, settable: bool, tag: string, plan: seq<Entry>, xs: seq<Rec>, ys: seq<Rec>, j: nat, m: nat, pos: nat, p: nat)
    requires Productive(s) && j <= m <= |xs| == |ys|
    decreases m - j
  {
    if j == m then p == pos
    else
      var sub := ItemFill(env, s, xs[j], settable, tag, plan, pos);
      sub.out.Pass? && ys[j] == sub.rec && PassedItems(env, s, settable, tag, plan, xs, ys, j + 1, m, sub.next, p)
  }

  /** Only the elements a run covers matter to it. */
  lemma {:induction false} PassedItemsAgree(env: Env, s: Stream, settable: bool, tag: string, plan: seq<Entry>, xs: seq<Rec>, xs': seq<Rec>, ys: seq<Rec>, j: nat, m: nat, pos: nat, p: nat)
    requires Productive(s) && j <= m <= |xs| == |xs'| == |ys| && xs[j..m] == xs'[j..m]
    requires PassedItems(env, s, settable, tag, plan, xs, ys, j, m, pos, p)
    ensures PassedItems(env, s, settable, tag, plan, xs', ys, j, m, pos, p)
    decreases m - j
  {
    if j < m {
      assert xs[j] == xs[j..m][0] == xs'[j..m][0] == xs'[j];
      assert xs[j + 1..m] == xs[j..m][1..];
      assert xs'[j + 1..m] == xs'[j..m][1..];
      var sub := ItemFill(env, s, xs[j], settable, tag, plan, pos);
      PassedItemsAgree(env, s, settable, tag, plan, xs, xs', ys, j + 1, m, sub.next, p);
    }
  }

  /** `fillSlice` returns the outcome of the first element that fails: the elements before it
      passed and hold what they became, the failing one holds what its own fill left, and the
      elements after it are untouched. When none fails it passes with every element filled. */
  lemma {:induction false} SliceFillStopsAtFirstFailure(env: Env, s: Stream, v: Rec, settable: bool, tag: string, plan: seq<Entry>, j: nat, pos: nat)
      returns (m: nat, p: nat)
    requires Productive(s) && v.RSlice? && j <= |v.items|
    ensures var r := SliceFill(env, s, v, settable, tag, plan, j, pos);
      j <= m <= |v.items| && PassedItems(env, s, settable, tag, plan, v.items, r.rec.items, j, m, pos, p) &&
      r.rec.items[..j] == v.items[..j] &&
      (m == |v.items| ==> r.out == Pass && r.next == p) &&
      (m < |v.items| ==>
        var sub := ItemFill(env, s, v.items[m], settable, tag, plan, p);
        !sub.out.Pass? && r.out == sub.out && r.next == sub.next &&
        r.rec.items[m] == sub.rec && r.rec.items[m + 1..] == v.items[m + 1..])
    decreases |v.items| - j
  {
    var r := SliceFill(env, s, v, settable, tag, plan, j, pos);
    m, p := j, pos;
    if j < |v.items| {
      var sub := ItemFill(env, s, v.items[j], settable, tag, plan, pos);
      var w := RSlice(v.elemKind, v.items[j := sub.rec]);
      SliceFillStep(env, s, v, settable, tag, plan, j, pos);
      if sub.out.Pass? {
        m, p := SliceFillStopsAtFirstFailure(env, s, w, settable, tag, plan, j + 1, sub.next);
        ItemsAfterStep(v.items, w.items, r.rec.items, j, m, sub.rec);
        PassedItemsAgree(env, s, settable, tag, plan, w.items, v.items, r.rec.items, j + 1, m, sub.next, p);
      }
    }
  }

  /** One element of `fillSlice`: it is written back, and the loop stops on its failure or
      goes on with the next element. */
  lemma SliceFillStep(env: Env, s: Stream, v: Rec, settable: bool, tag: string, plan: seq<Entry>, j: nat, pos: nat)
    requires Productive(s) && v.RSlice? && j < |v.items|
    ensures var sub := ItemFill(env, s, v.items[j], settable, tag, plan, pos);
      var w := RSlice(v.elemKind, v.items[j := sub.rec]);
      SliceFill(env, s, v, settable, tag, plan, j, pos) ==
        if sub.out.Pass? then SliceFill(env, s, w, settable, tag, plan, j + 1, sub.next) else Filled(sub.out, w, sub.next)
  {}

  /** A passing `fillSlice` passes its `j`-th element, writes it back and goes on with the
      next element; the other elements are as they were, and a scalar element holds a value
      of its kind. */
  lemma SliceGoesOn(env: Env, s: Stream, v: Rec, settable: bool, tag: string, plan: seq<Entry>, j: nat, pos: nat)
      returns (w: Rec, p: nat)
    requires Productive(s) && v.RSlice? && j < |v.items|
    requires SliceFill(env, s, v, settable, tag, plan, j, pos).out.Pass?
    ensures var sub := ItemFill(env, s, v.items[j], settable, tag, plan, pos);
      sub.out.Pass? && w == RSlice(v.elemKind, v.items[j := sub.rec]) && p == sub.next
    ensures SliceFill(env, s, v, settable, tag, plan, j, pos) == SliceFill(env, s, w, settable, tag, plan, j + 1, p)
    ensures Height(w) == Height(v) && ScalarHeld(w.items[j])
  {
    var sub := ItemFill(env, s, v.items[j], settable, tag, plan, pos);
    SliceFillStep(env, s, v, settable, tag, plan, j, pos);
    w, p := RSlice(v.elemKind, v.items[j := sub.rec]), sub.next;
    SetItemShape(v.elemKind, v.items, j, sub.rec);
    if sub.rec.RScalar? { assert Grown(sub.rec, v.items[j]); }
  }

  /** Writing element `j` leaves the others, before and after it, as they were. */
  lemma ItemsAfterStep(xs: seq<Rec>, ws: seq<Rec>, ys: seq<Rec>, j: nat, m: nat, x: Rec)
    requires j < m <= |xs| == |ys| && ws == xs[j := x] && ys[..j + 1] == ws[..j + 1]
    ensures ys[j] == x && ys[..j] == xs[..j] && ws[j + 1..m] == xs[j + 1..m]
    ensures m < |xs| ==> ws[m] == xs[m] && ws[m + 1..] == xs[m + 1..]
  {
    assert ys[j] == ws[..j + 1][j];
    assert ys[..j] == ys[..j + 1][..j];
  }

  // ---- buildGraph ----

  /** A struct value, or a slice whose element type is a struct: what the plan gives a map. */
  predicate StructLike(v: Rec)
  {
    v.RStruct? || (v.RSlice? && v.elemKind == Struct)
  }

  /** The entry `e` is what `buildGraph` records for the field `f`: only exported fields; a
      struct gives the nested map of its own plan, a slice of structs the plan of its first
      element, anything else its tag when that is not empty. */
  predicate EntryOf(f: Field, e: Entry)
    decreases f.val, 3
  {
    e.key == f.name && f.exported &&
    if f.val.RStruct? then Graph(f.val).Ok? && e.val == Node(Graph(f.val).value)
    else if f.val.RSlice? && f.val.elemKind == Struct then
      f.val.items != [] && Graph(f.val.items[0]).Ok? && e.val == Node(Graph(f.val.items[0]).value)
    else e.val == Tag(f.tag) && f.tag != []
  }

  /** `buildGraph` records the field. */
  predicate Planned(f: Field)
  {
    f.exported && (StructLike(f.val) || f.tag != [])
  }

  /** Some field of the struct `v` gives the entry `e`. */
  predicate EntryFromFields(v: Rec, e: Entry)
    requires v.RStruct?
    decreases v, 0
  {
    exists k :: 0 <= k < |v.fields| && EntryOf(v.fields[k], e)
  }

  /** The plan has an entry for `key`. */
  predicate HasKey(es: seq<Entry>, key: string)
  {
    exists j :: 0 <= j < |es| && es[j].key == key
  }

  /** `buildGraph` gets through `v`: it is a struct, and below every exported field that is a
      struct or a slice of structs there is a struct again, never an empty slice of structs. */
  predicate Buildable(v: Rec)
    decreases v, 0
  {
    v.RStruct? && forall k :: 0 <= k < |v.fields| ==> FieldBuildable(v.fields[k])
  }

  predicate FieldBuildable(f: Field)
    decreases f.val, 1
  {
    !f.exported ||
    ((f.val.RStruct? ==> Buildable(f.val)) &&
     (f.val.RSlice? && f.val.elemKind == Struct ==> f.val.items != [] && Buildable(f.val.items[0])))
  }

  /** `buildGraph(v)`: the plan of a struct. `NumField` panics on a value that is not a struct,
      and `Index(0)` on an empty slice of structs, at any depth; the error it returns is
      always nil. Otherwise every entry is the one its field gives, and every field it records
      has an entry. */
  function Graph(v: Rec): (r: Result<seq<Entry>>)
    ensures !r.Err?
    ensures r.Ok? <==> Buildable(v)
    ensures r.Ok? ==> v.RStruct? && forall j :: 0 <= j < |r.value| ==> EntryFromFields(v, r.value[j])
    ensures r.Ok? ==> forall k :: 0 <= k < |v.fields| && Planned(v.fields[k]) ==> HasKey(r.value, v.fields[k].name)
    decreases v, 2
  {
    if !v.RStruct? then Panic else GraphFrom(v, 0, [])
  }

  /** The field loop of `buildGraph` from the `i`-th field on, `acc` holding the entries so far. */
  function GraphFrom(v: Rec, i: nat, acc: seq<Entry>): (r: Result<seq<Entry>>)
    requires v.RStruct? && i <= |v.fields|
    ensures !r.Err?
    ensures r.Ok? <==> forall k :: i <= k < |v.fields| ==> FieldBuildable(v.fields[k])
    ensures r.Ok? ==> |acc| <= |r.value| && r.value[..|acc|] == acc
    ensures r.Ok? ==> forall j :: |acc| <= j < |r.value| ==> EntryFromFields(v, r.value[j])
    ensures r.Ok? ==> forall k :: i <= k < |v.fields| && Planned(v.fields[k]) ==> HasKey(r.value, v.fields[k].name)
    decreases v, 1, |v.fields| - i
  {
    if i == |v.fields| then Ok(acc)
    else
      var f := v.fields[i];
      var sub :=
        if !f.exported then Ok([])
        else if f.val.RStruct? then
          var m := Graph(f.val);
          if m.Panic? then Panic else Ok([Entry(f.name, Node(m.value))])
        else if f.val.RSlice? && f.val.elemKind == Struct then
          if f.val.items == [] then Panic
          else
            var m := Graph(f.val.items[0]);
            if m.Panic? then Panic else Ok([Entry(f.name, Node(m.value))])
        else if f.tag == [] then Ok([])
        else Ok([Entry(f.name, Tag(f.tag))]);
      if sub.Panic? then
        assert !FieldBuildable(f);
        Panic
      else
        assert FieldBuildable(f);
        assert forall e :: e in sub.value ==> EntryOf(f, e);
        var r := GraphFrom(v, i + 1, acc + sub.value);
        GraphStep(v, i, acc, sub.value, r);
        r
  }

  /** One field's entries, in front of what the rest of the loop adds. */
  lemma GraphStep(v: Rec, i: nat, acc: seq<Entry>, add: seq<Entry>, r: Result<seq<Entry>>)
    requires v.RStruct? && i < |v.fields| && |add| <= 1
    requires forall e :: e in add ==> EntryOf(v.fields[i], e)
    requires Planned(v.fields[i]) ==> |add| == 1
    requires r.Ok? ==> |acc + add| <= |r.value| && r.value[..|acc + add|] == acc + add
    requires r.Ok? ==> forall j :: |acc + add| <= j < |r.value| ==> EntryFromFields(v, r.value[j])
    requires r.Ok? ==> forall k :: i + 1 <= k < |v.fields| && Planned(v.fields[k]) ==> HasKey(r.value, v.fields[k].name)
    ensures r.Ok? ==> |acc| <= |r.value| && r.value[..|acc|] == acc
    ensures r.Ok? ==> forall j :: |acc| <= j < |r.value| ==> EntryFromFields(v, r.value[j])
    ensures r.Ok? ==> forall k :: i <= k < |v.fields| && Planned(v.fields[k]) ==> HasKey(r.value, v.fields[k].name)
    decreases v, 1, |v.fields| - i, 0
  {
    if r.Ok? {
      var w := r.value;
      assert w[..|acc|] == (acc + add)[..|acc|] == acc;
      if |add| == 1 {
        assert w[|acc|] == (acc + add)[|acc|] == add[0];
        assert add[0] in add;
        assert EntryOf(v.fields[i], w[|acc|]);
        assert EntryFromFields(v, w[|acc|]);
        assert HasKey(w, v.fields[i].name);
      }
    }
  }

  /** `buildGraph` as the source runs it: a loop over the fields that inserts one map entry
      per planned field (the field names of a struct are distinct, so an insertion never
      replaces an entry). */
  method BuildGraph(v: Rec) returns (res: Result<seq<Entry>>)
    ensures res == Graph(v)
    decreases v, 2
  {
    if !v.RStruct? {
      return Panic;
    }
    var graph: seq<Entry> := [];
    var i := 0;
    while i < |v.fields|
      invariant i <= |v.fields|
      invariant GraphFrom(v, i, graph) == Graph(v)
    {
      var f := v.fields[i];
      assert graph + [] == graph;
      if f.exported {
        if f.val.RStruct? {
          var m := BuildGraph(f.val);
          if m.Panic? {
            return Panic;
          }
          graph := graph + [Entry(f.name, Node(m.value))];
        } else if f.val.RSlice? && f.val.elemKind == Struct {
          if f.val.items == [] {
            return Panic;
          }
          var m := BuildGraph(f.val.items[0]);
          if m.Panic? {
            return Panic;
          }
          graph := graph + [Entry(f.name, Node(m.value))];
        } else if f.tag != [] {
          graph := graph + [Entry(f.name, Tag(f.tag))];
        }
      }
      i := i + 1;
    }
    return Ok(graph);
  }

  // ---- What a pass writes ----

  /** Go gives the fields of one struct distinct names. */
  predicate DistinctNames(fs: seq<Field>)
  {
    forall i, j :: 0 <= i < j < |fs| ==> fs[i].name != fs[j].name
  }

  /** The field `FieldByName(key)` finds, when it is a scalar, holds a value that fits it. */
  predicate Written(w: Rec, key: string)
  {
    w.RStruct? &&
    var k := Lookup(w.fields, key);
    (k >= 0 && w.fields[k].val.RScalar? ==> Fits(w.fields[k].val.kind, w.fields[k].val.value))
  }

  /** Filling keeps the field names, so a name is found at the same place before and after. */
  lemma LookupGrown(a: Rec, b: Rec, key: string)
    requires a.RStruct? && Grown(a, b)
    ensures Lookup(a.fields, key) == Lookup(b.fields, key)
  {
    assert forall i :: 0 <= i < |a.fields| ==> a.fields[i].name == b.fields[i].name by {
      forall i | 0 <= i < |a.fields| ensures a.fields[i].name == b.fields[i].name {
        assert GrownField(a.fields[i], b.fields[i]);
      }
    }
  }

  /** When `fillStruct` passes on a struct, every field a tag entry of the plan names holds a
      written value of its kind (a field of another kind is filled by its own walk). */
  lemma {:induction false} PassWritesTagged(env: Env, s: Stream, v: Rec, settable: bool, plan: seq<Entry>, i: nat, pos: nat)
    requires Productive(s) && i <= |plan| && v.RStruct?
    ensures var r := StructFill(env, s, v, settable, plan, i, pos);
      r.out.Pass? ==> forall j :: i <= j < |plan| && plan[j].val.Tag? ==> Written(r.rec, plan[j].key)
  {
    WritesFrom(env, s, v, settable, plan, i, pos, StructFill(env, s, v, settable, plan, i, pos));
  }

  lemma {:induction false} WritesFrom(env: Env, s: Stream, v: Rec, settable: bool, plan: seq<Entry>, i: nat, pos: nat, r: Filled)
    requires Productive(s) && i <= |plan| && v.RStruct? && r == StructFill(env, s, v, settable, plan, i, pos)
    ensures r.out.Pass? ==> forall j :: i <= j < |plan| && plan[j].val.Tag? ==> Written(r.rec, plan[j].key)
    decreases |plan| - i
  {
    if i < |plan| && r.out.Pass? {
      var w, p := PassGoesOn(env, s, v, settable, plan, i, pos);
      WritesFrom(env, s, w, settable, plan, i + 1, p, r);
      WrittenStep(r.rec, w, v, plan, i);
    }
  }

  /** A passing walk on a struct passes its entry, which leaves a struct of the same shape
      with a passing tag entry's scalar written, and goes on from there. */
  lemma PassGoesOn(env: Env, s: Stream, v: Rec, settable: bool, plan: seq<Entry>, i: nat, pos: nat) returns (w: Rec, p: nat)
    requires Productive(s) && i < |plan| && v.RStruct?
    requires StructFill(env, s, v, settable, plan, i, pos).out.Pass?
    ensures w.RStruct? && Grown(w, v)
    ensures StructFill(env, s, v, settable, plan, i, pos) == StructFill(env, s, w, settable, plan, i + 1, p)
    ensures plan[i].val.Tag? ==> var k := Lookup(v.fields, plan[i].key);
      0 <= k && (w.fields[k].val.RScalar? ==> Fits(w.fields[k].val.kind, w.fields[k].val.value))
  {
    var e := EntryFill(env, s, v, settable, plan, i, pos);
    StructFillStep(env, s, v, settable, plan, i, pos);
    w, p := e.rec, e.next;
  }

  /** The fields the later entries wrote, and the field the `i`-th entry wrote. */
  lemma WrittenStep(r: Rec, w: Rec, v: Rec, plan: seq<Entry>, i: nat)
    requires i < |plan| && v.RStruct? && w.RStruct? && Grown(w, v) && Grown(r, w)
    requires forall j :: i + 1 <= j < |plan| && plan[j].val.Tag? ==> Written(r, plan[j].key)
    requires plan[i].val.Tag? ==> var k := Lookup(v.fields, plan[i].key);
      0 <= k && (w.fields[k].val.RScalar? ==> Fits(w.fields[k].val.kind, w.fields[k].val.value))
    ensures forall j :: i <= j < |plan| && plan[j].val.Tag? ==> Written(r, plan[j].key)
  {
    if plan[i].val.Tag? {
      TagFieldWritten(r, w, v, Lookup(v.fields, plan[i].key), plan[i].key);
    }
  }

  /** The field a passing tag entry wrote stays written through the rest of the walk. */
  lemma TagFieldWritten(r: Rec, w: Rec, v: Rec, k: int, key: string)
    requires v.RStruct? && Lookup(v.fields, key) == k && 0 <= k
    requires w.RStruct? && Grown(w, v) && Grown(r, w)
    requires w.fields[k].val.RScalar? ==> Fits(w.fields[k].val.kind, w.fields[k].val.value)
    ensures Written(r, key)
  {
    LookupGrown(r, w, key);
    LookupGrown(w, v, key);
    assert GrownField(r.fields[k], w.fields[k]);
    var x, y := r.fields[k].val, w.fields[k].val;
    assert Grown(x, y);
    if x.RScalar? {
      assert y.RScalar? && x.kind == y.kind;
    }
  }

  /** The plan `buildGraph` gives has a tag entry for every exported scalar field with a tag. */
  lemma TaggedFieldPlanned(v: Rec, plan: seq<Entry>, k: nat) returns (j: nat)
    requires v.RStruct? && DistinctNames(v.fields) && Graph(v) == Ok(plan)
    requires k < |v.fields| && v.fields[k].exported && v.fields[k].tag != [] && v.fields[k].val.RScalar?
    ensures j < |plan| && plan[j] == Entry(v.fields[k].name, Tag(v.fields[k].tag))
  {
    assert Planned(v.fields[k]);
    assert HasKey(plan, v.fields[k].name);
    j :| 0 <= j < |plan| && plan[j].key == v.fields[k].name;
    assert EntryFromFields(v, plan[j]);
    var k' :| 0 <= k' < |v.fields| && EntryOf(v.fields[k'], plan[j]);
    assert k' == k;
  }

  // ---- Fields held at every depth ----

  /** A scalar holds a value of its kind. */
  predicate ScalarHeld(x: Rec)
  {
    x.RScalar? ==> Fits(x.kind, x.value)
  }

  /** What a passing fill leaves in a struct: every field held. */
  predicate TagsHeld(v: Rec)
    decreases v, 0
  {
    v.RStruct? && forall k :: 0 <= k < |v.fields| ==> FieldHeld(v.fields[k])
  }

  /** A field is held when it is unexported, or an exported tagged scalar that holds a value
      of its kind, or a struct whose fields are held, or a slice of structs whose every element
      is, or a tagged slice of anything else whose every scalar element holds a value of its
      kind. */
  predicate FieldHeld(f: Field)
    decreases f.val, 1
  {
    !f.exported ||
    match f.val
    case RScalar(_, _) => f.tag != [] ==> ScalarHeld(f.val)
    case RStruct(_) => TagsHeld(f.val)
    case RSlice(ek, xs) =>
      if ek == Struct then forall j :: 0 <= j < |xs| ==> TagsHeld(xs[j])
      else f.tag != [] ==> forall j :: 0 <= j < |xs| ==> ScalarHeld(xs[j])
    case RZero => true
  }

  /** A field `buildGraph` leaves out is held whatever it holds. */
  lemma NotPlannedHeld(f: Field)
    requires !Planned(f)
    ensures FieldHeld(f)
  {}

  /** What is held stays held as filling goes on. */
  lemma {:induction false} HeldGrown(a: Rec, b: Rec)
    requires Grown(a, b) && TagsHeld(b)
    ensures TagsHeld(a)
    decreases a, 0
  {
    forall k | 0 <= k < |a.fields| ensures FieldHeld(a.fields[k]) {
      assert GrownField(a.fields[k], b.fields[k]);
      FieldHeldGrown(a.fields[k], b.fields[k]);
    }
  }

  lemma {:induction false} FieldHeldGrown(f: Field, g: Field)
    requires GrownField(f, g) && FieldHeld(g)
    ensures FieldHeld(f)
    decreases f.val, 1
  {
    if f.exported {
      match f.val
      case RStruct(_) =>
        HeldGrown(f.val, g.val);
      case RSlice(ek, xs) =>
        if ek == Struct {
          forall j | 0 <= j < |xs| ensures TagsHeld(xs[j]) {
            HeldGrown(xs[j], g.val.items[j]);
          }
        } else if f.tag != [] {
          forall j | 0 <= j < |xs| ensures ScalarHeld(xs[j]) {
            assert Grown(xs[j], g.val.items[j]);
          }
        }
      case _ =>
    }
  }

  /** Some entry of `P` from the `lo`-th on has the field's name and a value that reaches it. */
  predicate Witness(P: seq<Entry>, lo: nat, f: Field)
    decreases f.val, 2
  {
    exists j :: lo <= j < |P| && P[j].key == f.name && EntryCovers(P[j].val, f)
  }

  /** The plan `P` reaches every field of the struct `v` that `buildGraph` records. */
  predicate Covers(P: seq<Entry>, v: Rec)
    decreases v, 0
  {
    v.RStruct? && DistinctNames(v.fields) &&
    forall k :: 0 <= k < |v.fields| && Planned(v.fields[k]) ==> Witness(P, 0, v.fields[k])
  }

  /** A plan value reaches a field: a nested map that covers a struct, or every element of a
      slice of structs; the field's own tag for anything else. */
  predicate EntryCovers(p: Plan, f: Field)
    decreases f.val, 1
  {
    if f.val.RStruct? then p.Node? && Covers(p.entries, f.val)
    else if f.val.RSlice? && f.val.elemKind == Struct then
      p.Node? && forall j :: 0 <= j < |f.val.items| ==> Covers(p.entries, f.val.items[j])
    else p == Tag(f.tag)
  }

  /** Filling keeps the shape a plan covers. */
  lemma {:induction false} CoversGrown(P: seq<Entry>, a: Rec, b: Rec)
    requires Grown(a, b) && Covers(P, b)
    ensures Covers(P, a)
    decreases a, 0
  {
    forall k | 0 <= k < |a.fields| ensures GrownField(a.fields[k], b.fields[k]) {}
    forall k | 0 <= k < |a.fields| && Planned(a.fields[k]) ensures Witness(P, 0, a.fields[k]) {
      StructLikeGrown(a.fields[k].val, b.fields[k].val);
      WitnessGrown(P, 0, a.fields[k], b.fields[k]);
    }
  }

  lemma {:induction false} WitnessGrown(P: seq<Entry>, lo: nat, f: Field, g: Field)
    requires GrownField(f, g) && Witness(P, lo, g)
    ensures Witness(P, lo, f)
    decreases f.val, 2
  {
    var j :| lo <= j < |P| && P[j].key == g.name && EntryCovers(P[j].val, g);
    EntryCoversGrown(P[j].val, f, g);
  }

  lemma {:induction false} EntryCoversGrown(p: Plan, f: Field, g: Field)
    requires GrownField(f, g) && EntryCovers(p, g)
    ensures EntryCovers(p, f)
    decreases f.val, 1
  {
    StructLikeGrown(f.val, g.val);
    if f.val.RStruct? {
      CoversGrown(p.entries, f.val, g.val);
    } else if f.val.RSlice? && f.val.elemKind == Struct {
      forall j | 0 <= j < |f.val.items| ensures Covers(p.entries, f.val.items[j]) {
        CoversGrown(p.entries, f.val.items[j], g.val.items[j]);
      }
    }
  }

  /** Filling keeps structs structs and slices slices of the same element kind. */
  lemma StructLikeGrown(a: Rec, b: Rec)
    requires Grown(a, b)
    ensures a.RStruct? <==> b.RStruct?
    ensures a.RSlice? <==> b.RSlice?
    ensures a.RSlice? ==> a.elemKind == b.elemKind
  {}

  /** Every field of `w` is held already or waits for an entry from the `i`-th on. */
  predicate Pending(P: seq<Entry>, i: nat, w: Rec)
  {
    w.RStruct? && DistinctNames(w.fields) &&
    forall k :: 0 <= k < |w.fields| ==> FieldHeld(w.fields[k]) || Witness(P, i, w.fields[k])
  }

  lemma CoversPending(P: seq<Entry>, v: Rec)
    requires Covers(P, v)
    ensures Pending(P, 0, v)
  {
    forall k | 0 <= k < |v.fields| && !Planned(v.fields[k]) ensures FieldHeld(v.fields[k]) {
      NotPlannedHeld(v.fields[k]);
    }
  }

  /** When `fillStruct` passes along a plan that covers a struct, every field of the struct is
      held, at every depth. */
  lemma StructFillHolds(env: Env, s: Stream, v: Rec, settable: bool, P: seq<Entry>, pos: nat)
    requires Productive(s) && Covers(P, v)
    ensures var r := StructFill(env, s, v, settable, P, 0, pos); r.out.Pass? ==> TagsHeld(r.rec)
    decreases Height(v), 2
  {
    CoversPending(P, v);
    WalkHolds(env, s, v, settable, P, 0, pos, StructFill(env, s, v, settable, P, 0, pos));
  }

  /** The walk from the `i`-th entry on: what waits for an entry is held once the walk passes. */
  lemma {:induction false} WalkHolds(env: Env, s: Stream, v: Rec, settable: bool, P: seq<Entry>, i: nat, pos: nat, r: Filled)
    requires Productive(s) && i <= |P| && Pending(P, i, v) && r == StructFill(env, s, v, settable, P, i, pos)
    ensures r.out.Pass? ==> TagsHeld(r.rec)
    decreases Height(v), 1, |P| - i
  {
    if i == |P| {
      WalkDone(env, s, v, settable, P, pos, r);
    } else if r.out.Pass? {
      var w, p := WalkStep(env, s, v, settable, P, i, pos, r);
      WalkHolds(env, s, w, settable, P, i + 1, p, r);
    }
  }

  /** Past the last entry the walk passes on the record as it is, and nothing waits any more. */
  lemma WalkDone(env: Env, s: Stream, v: Rec, settable: bool, P: seq<Entry>, pos: nat, r: Filled)
    requires Productive(s) && Pending(P, |P|, v) && r == StructFill(env, s, v, settable, P, |P|, pos)
    ensures r.out.Pass? && TagsHeld(r.rec)
  {
    forall k | 0 <= k < |v.fields| ensures FieldHeld(v.fields[k]) {
      assert !Witness(P, |P|, v.fields[k]);
    }
  }

  /** A passing walk passes its entry, which keeps the record's height and leaves what waits
      pending for the entries after it. */
  lemma WalkStep(env: Env, s: Stream, v: Rec, settable: bool, P: seq<Entry>, i: nat, pos: nat, r: Filled) returns (w: Rec, p: nat)
    requires Productive(s) && i < |P| && Pending(P, i, v)
    requires r == StructFill(env, s, v, settable, P, i, pos) && r.out.Pass?
    ensures Height(w) == Height(v) && Pending(P, i + 1, w)
    ensures r == StructFill(env, s, w, settable, P, i + 1, p)
    decreases Height(v), 0, 2
  {
    var e := EntryFill(env, s, v, settable, P, i, pos);
    w, p := e.rec, e.next;
    StructFillStep(env, s, v, settable, P, i, pos);
    GrownHeight(e.rec, v);
    EntryStep(env, s, v, settable, P, i, pos);
  }

  /** A passing entry keeps every field held or waiting, now for the entries after it. */
  lemma {:induction false} EntryStep(env: Env, s: Stream, v: Rec, settable: bool, P: seq<Entry>, i: nat, pos: nat)
    requires Productive(s) && i < |P| && Pending(P, i, v)
    requires EntryFill(env, s, v, settable, P, i, pos).out.Pass?
    ensures Pending(P, i + 1, EntryFill(env, s, v, settable, P, i, pos).rec)
    decreases Height(v), 0, 1
  {
    var e := EntryFill(env, s, v, settable, P, i, pos);
    assert e.rec.RStruct?;
    forall k | 0 <= k < |e.rec.fields| ensures GrownField(e.rec.fields[k], v.fields[k]) {}
    forall k | 0 <= k < |e.rec.fields| ensures FieldHeld(e.rec.fields[k]) || Witness(P, i + 1, e.rec.fields[k]) {
      var f := v.fields[k];
      if FieldHeld(f) {
        FieldHeldGrown(e.rec.fields[k], f);
      } else {
        var j :| i <= j < |P| && P[j].key == f.name && EntryCovers(P[j].val, f);
        if j == i {
          assert Lookup(v.fields, P[i].key) == k;
          EntryHolds(env, s, v, settable, P, i, pos, k);
        } else {
          assert Witness(P, i + 1, f);
          WitnessGrown(P, i + 1, e.rec.fields[k], f);
        }
      }
    }
  }

  /** A passing entry that covers the field it names leaves that field held. */
  lemma {:induction false} EntryHolds(env: Env, s: Stream, v: Rec, settable: bool, P: seq<Entry>, i: nat, pos: nat, k: nat)
    requires Productive(s) && i < |P| && v.RStruct? && k < |v.fields|
    requires Lookup(v.fields, P[i].key) == k && EntryCovers(P[i].val, v.fields[k])
    ensures var e := EntryFill(env, s, v, settable, P, i, pos);
      e.out.Pass? ==> FieldHeld(e.rec.fields[k])
    decreases Height(v), 0, 0
  {
    var e := EntryFill(env, s, v, settable, P, i, pos);
    var f := v.fields[k];
    FieldLower(v.fields, k);
    if e.out.Pass? && f.exported {
      match P[i].val
      case Tag(tag) =>
        var sub := FieldFill(env, s, f.val, settable && f.exported, tag, P, pos);
        assert e.rec.fields[k] == f.(val := sub.rec);
        if f.val.RSlice? {
          SliceScalarsHeld(env, s, f.val, settable && f.exported, tag, P, 0, pos, sub);
        }
      case Node(entries) =>
        var sub := StructFill(env, s, f.val, settable && f.exported, entries, 0, pos);
        assert e.rec.fields[k] == f.(val := sub.rec);
        if f.val.RStruct? {
          StructFillHolds(env, s, f.val, settable && f.exported, entries, pos);
        } else {
          SliceWalkHolds(env, s, f.val, settable && f.exported, entries, pos);
        }
    }
  }

  /** A slice of anything but structs that passes `fillSlice` holds a value of its kind in
      every scalar element. */
  lemma {:induction false} SliceScalarsHeld(env: Env, s: Stream, v: Rec, settable: bool, tag: string, P: seq<Entry>, j: nat, pos: nat, r: Filled)
    requires Productive(s) && v.RSlice? && j <= |v.items| && r == SliceFill(env, s, v, settable, tag, P, j, pos)
    requires forall m :: 0 <= m < j ==> ScalarHeld(v.items[m])
    ensures r.out.Pass? ==> forall m :: 0 <= m < |r.rec.items| ==> ScalarHeld(r.rec.items[m])
    decreases |v.items| - j
  {
    if j < |v.items| && r.out.Pass? {
      var w, p := SliceGoesOn(env, s, v, settable, tag, P, j, pos);
      assert forall m :: 0 <= m < j ==> w.items[m] == v.items[m];
      SliceScalarsHeld(env, s, w, settable, tag, P, j + 1, p, r);
    }
  }

  /** A slice of structs walked with a nested map that covers every element: the walk hands
      the slice to `fillSlice` at its first entry, and when that passes every element is held. */
  lemma {:induction false} SliceWalkHolds(env: Env, s: Stream, x: Rec, settable: bool, P: seq<Entry>, pos: nat)
    requires Productive(s) && x.RSlice? && forall j :: 0 <= j < |x.items| ==> Covers(P, x.items[j])
    ensures var r := StructFill(env, s, x, settable, P, 0, pos);
      r.out.Pass? ==> r.rec.RSlice? && forall j :: 0 <= j < |r.rec.items| ==> TagsHeld(r.rec.items[j])
    decreases Height(x), 2
  {
    var r := StructFill(env, s, x, settable, P, 0, pos);
    if r.out.Pass? {
      if P == [] {
        forall j | 0 <= j < |x.items| ensures TagsHeld(x.items[j]) {
          ItemLower(x.elemKind, x.items, j);
          StructFillHolds(env, s, x.items[j], settable, P, pos);
        }
      } else {
        assert P[0].val.Tag?;
        SliceItemsHeld(env, s, x, settable, P[0].val.tag, P, 0, pos, SliceFill(env, s, x, settable, P[0].val.tag, P, 0, pos));
      }
    }
  }

  /** `fillSlice` over structs that a plan covers: when it passes, every element is held. */
  lemma {:induction false} SliceItemsHeld(env: Env, s: Stream, v: Rec, settable: bool, tag: string, P: seq<Entry>, j: nat, pos: nat, r: Filled)
    requires Productive(s) && v.RSlice? && j <= |v.items| && r == SliceFill(env, s, v, settable, tag, P, j, pos)
    requires forall m :: 0 <= m < j ==> TagsHeld(v.items[m])
    requires forall m :: j <= m < |v.items| ==> Covers(P, v.items[m])
    ensures r.out.Pass? ==> forall m :: 0 <= m < |r.rec.items| ==> TagsHeld(r.rec.items[m])
    decreases Height(v), 0, |v.items| - j
  {
    if j < |v.items| && r.out.Pass? {
      var w, p := SliceGoesOn(env, s, v, settable, tag, P, j, pos);
      ItemLower(v.elemKind, v.items, j);
      StructFillHolds(env, s, v.items[j], settable, P, pos);
      assert forall m :: 0 <= m < j ==> w.items[m] == v.items[m];
      assert forall m :: j < m < |v.items| ==> w.items[m] == v.items[m];
      SliceItemsHeld(env, s, w, settable, tag, P, j + 1, p, r);
    }
  }

  /** `a` and `b` are values of one Go type: structs with the same fields (names, export, tags)
      whose values are of one type in turn, slices of one element kind whose elements all have
      that kind and are all of one type, or scalars of one kind. */
  predicate OfOneType(a: Rec, b: Rec)
    decreases a
  {
    match a
    case RStruct(fa) =>
      b.RStruct? && |fa| == |b.fields| && DistinctNames(fa) && DistinctNames(b.fields) &&
      forall k :: 0 <= k < |fa| ==>
        fa[k].name == b.fields[k].name && fa[k].exported == b.fields[k].exported &&
        fa[k].tag == b.fields[k].tag && OfOneType(fa[k].val, b.fields[k].val)
    case RSlice(ea, xa) =>
      b.RSlice? && ea == b.elemKind &&
      (forall i :: 0 <= i < |xa| ==> KindOf(xa[i]) == ea) &&
      (forall j :: 0 <= j < |b.items| ==> KindOf(b.items[j]) == ea) &&
      forall i, j :: 0 <= i < |xa| && 0 <= j < |b.items| ==> OfOneType(xa[i], b.items[j])
    case RScalar(ka, _) => b.RScalar? && b.kind == ka
    case RZero => b.RZero?
  }

  /** A struct as Go types it: all elements of a slice share the slice's element type. */
  predicate Typed(v: Rec)
  {
    v.RStruct? && OfOneType(v, v)
  }

  /** The plan `buildGraph` makes from one value covers every value of the same type, which is
      why the plan of a slice's first element serves all its elements. */
  lemma {:induction false} GraphCovers(a: Rec, b: Rec)
    requires Graph(a).Ok? && OfOneType(a, b)
    ensures Covers(Graph(a).value, b)
    decreases a
  {
    var P := Graph(a).value;
    forall k | 0 <= k < |b.fields| && Planned(b.fields[k]) ensures Witness(P, 0, b.fields[k]) {
      var f, g := a.fields[k], b.fields[k];
      assert f.name == g.name && f.exported == g.exported && f.tag == g.tag && OfOneType(f.val, g.val);
      assert StructLike(f.val) == StructLike(g.val);
      assert HasKey(P, f.name);
      var j :| 0 <= j < |P| && P[j].key == f.name;
      assert EntryFromFields(a, P[j]);
      var k' :| 0 <= k' < |a.fields| && EntryOf(a.fields[k'], P[j]);
      assert k' == k;
      if f.val.RStruct? {
        GraphCovers(f.val, g.val);
      } else if f.val.RSlice? && f.val.elemKind == Struct {
        forall m | 0 <= m < |g.val.items| ensures Covers(P[j].val.entries, g.val.items[m]) {
          GraphCovers(f.val.items[0], g.val.items[m]);
        }
      }
      assert EntryCovers(P[j].val, g);
    }
  }

  /** When `Fill` passes on a record with no plan yet, every exported tagged scalar field holds
      a written value of its kind, and so does every such field of every nested struct and of
      every element of a slice of structs, and every scalar element of a tagged slice. */
  lemma FillWritesTaggedFields(env: Env, src: Stream, v: Rec)
    requires Productive(src) && Typed(v)
    ensures var f := FillOf(env, src, [], v); f.0.Pass? ==> TagsHeld(f.2)
  {
    var f := FillOf(env, src, [], v);
    if f.0.Pass? {
      GraphCovers(v, v);
      StructFillHolds(env, src, v, true, Graph(v).value, 0);
    }
  }

  // ---- The maker ----

  /** The options `New` takes, in the order given. */
  datatype Opt = WithSeed(seed: int) | WithFuncMap(funcs: map<string, string>) | WithFieldsMapping(plan: seq<Entry>)

  /** The state an option sets: the seed, the function map and the plan. */
  datatype Config = Config(seed: int, funcs: map<string, string>, fields: seq<Entry>)

  /** The seed after the options from the `i`-th on: the last `WithSeed` wins, and without
      one the seed is kept. */
  function SeedAfter(opts: seq<Opt>, i: nat, seed: int): (r: int)
    requires i <= |opts|
    ensures (forall j :: i <= j < |opts| ==> !opts[j].WithSeed?) ==> r == seed
    ensures forall j :: i <= j < |opts| && opts[j].WithSeed? && (forall l :: j < l < |opts| ==> !opts[l].WithSeed?) ==>
      r == opts[j].seed
    decreases |opts| - i
  {
    if i == |opts| then seed
    else SeedAfter(opts, i + 1, if opts[i].WithSeed? then opts[i].seed else seed)
  }

  /** The function map after the options from the `i`-th on: the last `WithFuncMap` wins. */
  function FuncsAfter(opts: seq<Opt>, i: nat, funcs: map<string, string>): (r: map<string, string>)
    requires i <= |opts|
    ensures (forall j :: i <= j < |opts| ==> !opts[j].WithFuncMap?) ==> r == funcs
    ensures forall j :: i <= j < |opts| && opts[j].WithFuncMap? && (forall l :: j < l < |opts| ==> !opts[l].WithFuncMap?) ==>
      r == opts[j].funcs
    decreases |opts| - i
  {
    if i == |opts| then funcs
    else FuncsAfter(opts, i + 1, if opts[i].WithFuncMap? then opts[i].funcs else funcs)
  }

  /** The plan after the options from the `i`-th on: the last `WithFieldsMapping` wins. */
  function FieldsAfter(opts: seq<Opt>, i: nat, fields: seq<Entry>): (r: seq<Entry>)
    requires i <= |opts|
    ensures (forall j :: i <= j < |opts| ==> !opts[j].WithFieldsMapping?) ==> r == fields
    ensures forall j :: i <= j < |opts| && opts[j].WithFieldsMapping? && (forall l :: j < l < |opts| ==> !opts[l].WithFieldsMapping?) ==>
      r == opts[j].plan
    decreases |opts| - i
  {
    if i == |opts| then fields
    else FieldsAfter(opts, i + 1, if opts[i].WithFieldsMapping? then opts[i].plan else fields)
  }

  /** The options from the `i`-th on applied to `c`, in order: each part of the state is the
      one the last option setting it gave, or as it was when no option sets it. */
  function Configure(c: Config, opts: seq<Opt>, i: nat): (r: Config)
    requires i <= |opts|
    ensures r == Config(SeedAfter(opts, i, c.seed), FuncsAfter(opts, i, c.funcs), FieldsAfter(opts, i, c.fields))
    decreases |opts| - i
  {
    if i == |opts| then c
    else
      var c' := match opts[i]
        case WithSeed(x) => c.(seed := x)
        case WithFuncMap(f) => c.(funcs := f)
        case WithFieldsMapping(p) => c.(fields := p);
      Configure(c', opts, i + 1)
  }

  /** Once an option sets the seed, the clock reading `New` started from no longer matters:
      two makers built from the same options end in the same state. */
  lemma SeedOptionFixesConfig(c1: Config, c2: Config, opts: seq<Opt>, i: nat)
    requires i <= |opts| && c1.funcs == c2.funcs && c1.fields == c2.fields
    requires exists j :: i <= j < |opts| && opts[j].WithSeed?
    ensures Configure(c1, opts, i) == Configure(c2, opts, i)
  {
    var j :| i <= j < |opts| && opts[j].WithSeed?;
    SeedOptionFixesSeed(opts, i, j, c1.seed, c2.seed);
  }

  lemma {:induction false} SeedOptionFixesSeed(opts: seq<Opt>, i: nat, j: nat, a: int, b: int)
    requires i <= j < |opts| && opts[j].WithSeed?
    ensures SeedAfter(opts, i, a) == SeedAfter(opts, i, b)
    decreases j - i
  {
    if !opts[i].WithSeed? {
      SeedOptionFixesSeed(opts, i + 1, j, a, b);
    }
  }

  /** `Fill` on a record held behind a pointer whose plan is `fields`: the outcome, the plan the
      maker keeps afterwards, and the record afterwards. An empty plan is built from the
      record first, and the walk draws from a source freshly seeded with `src`. */
  ghost function FillOf(env: Env, src: Stream, fields: seq<Entry>, v: Rec): (r: (Outcome, seq<Entry>, Rec))
    requires Productive(src)
    ensures |fields| > 0 ==> r.1 == fields
    ensures |fields| == 0 && Graph(v).Ok? ==> r.1 == Graph(v).value
    ensures |fields| == 0 && Graph(v).Panic? ==> r == (Crash, fields, v)
    ensures Grown(r.2, v)
  {
    GrownRefl(v);
    var plan := if |fields| == 0 then Graph(v) else Ok(fields);
    if plan.Panic? then (Crash, fields, v)
    else
      var f := StructFill(env, src, v, true, plan.value, 0, 0);
      (f.out, plan.value, f.rec)
  }

  /** Every seed gives a productive source. */
  ghost predicate Seeded(source: int -> Stream)
  {
    forall x :: Productive(source(x))
  }

  lemma SeededAt(source: int -> Stream, x: int)
    requires Seeded(source)
    ensures Productive(source(x))
  {}

  /** The pointer `Fill` writes through. */
  class Box {
    var rec: Rec

    constructor (v: Rec)
      ensures rec == v
    {
      rec := v;
    }
  }

  /** The argument of `Fill`: a pointer, or a value of another kind. */
  datatype Arg = NonPointer(kind: Kind) | Pointer(box: Box)

  function Targets(arg: Arg): set<object>
  {
    if arg.Pointer? then {arg.box} else {}
  }

  /** `Maker`: the seed, the function map and the cached plan; `now` stands for
      `time.Now().Unix()`, `source` for `rand.NewSource`, and `fp` and `parse` for the library
      parsers the fillers call. */
  class Maker {
    var seed: int
    var funcs: map<string, string>
    var fields: seq<Entry>
    const fp: FloatParsers
    const parse: string -> Option<Regex>
    const source: int -> Stream

    ghost predicate Valid()
      reads this
    {
      Seeded(source)
    }

    function Deps(): Env
      reads this
    {
      Env(funcs, fp, parse)
    }

    function State(): Config
      reads this
    {
      Config(seed, funcs, fields)
    }

    /** `New(options...)`: the clock as the seed, an empty function map and no plan, then each
      option in turn. */
    constructor New(now: int, opts: seq<Opt>, fp: FloatParsers, parse: string -> Option<Regex>, source: int -> Stream)
      requires Seeded(source)
      ensures Valid() && State() == Configure(Config(now, map[], []), opts, 0)
      ensures this.fp == fp && this.parse == parse && this.source == source
    {
      seed := now;
      funcs := map[];
      fields := [];
      this.fp := fp;
      this.parse := parse;
      this.source := source;
      new;
      var i := 0;
      while i < |opts|
        invariant i <= |opts|
        invariant Configure(State(), opts, i) == Configure(Config(now, map[], []), opts, 0)
        decreases |opts| - i
      {
        match opts[i] {
          case WithSeed(x) => seed := x;
          case WithFuncMap(f) => funcs := f;
          case WithFieldsMapping(p) => fields := p;
        }
        i := i + 1;
      }
    }

    /** `m.fillSimple(r, tag, v)`. */
    method FillSimple(r: Rand, v: Rec, tag: string) returns (res: Result<Value>)
      requires r.Valid()
      modifies r
      ensures Step(res, r.pos) == SimpleFill(Deps(), r.stream, v, tag, old(r.pos))
    {
      var opt := OptionValueOf(tag);
      if opt == RandOption {
        res := FillRandomSimple(r, KindOf(v), tag);
      } else if opt == RegexOption {
        res := FillRegexSimple(r, parse, KindOf(v), tag);
      } else if opt == FuncOption {
        res := FillFunc(funcs, fp, KindOf(v), tag);
      } else {
        res := Err("option not available " + tag);
      }
    }

    /** `m.fillStruct(r, v, plan)`: the entries in order; the first failure, or a tag entry on
        a slice, ends the loop at once. */
    method FillStruct(r: Rand, v: Rec, settable: bool, plan: seq<Entry>) returns (out: Outcome, w: Rec)
      requires r.Valid()
      modifies r
      ensures Filled(out, w, r.pos) == StructFill(Deps(), r.stream, v, settable, plan, 0, old(r.pos))
      decreases Height(v), 1
    {
      ghost var spec := StructFill(Deps(), r.stream, v, settable, plan, 0, r.pos);
      w := v;
      GrownRefl(v);
      var i := 0;
      while i < |plan|
        invariant i <= |plan| && r.Valid() && Grown(w, v)
        invariant StructFill(Deps(), r.stream, w, settable, plan, i, r.pos) == spec
        decreases |plan| - i
      {
        GrownHeight(w, v);
        var ends := EndsWalk(w, plan[i]);
        var next;
        out, next := FillEntry(r, w, settable, plan, i);
        GrownTrans(next, w, v);
        w := next;
        if ends || !out.Pass? {
          return;
        }
        i := i + 1;
      }
      out := Pass;
    }

    /** One pass of `fillStruct`'s loop, on the `i`-th entry. */
    method FillEntry(r: Rand, w: Rec, settable: bool, plan: seq<Entry>, i: nat) returns (out: Outcome, next: Rec)
      requires r.Valid() && i < |plan|
      modifies r
      ensures Filled(out, next, r.pos) == EntryFill(Deps(), r.stream, w, settable, plan, i, old(r.pos))
      decreases Height(w), 1, |plan| - i, 0
    {
      next := w;
      var e := plan[i];
      match e.val {
        case Tag(tag) =>
          if w.RSlice? {
            out, next := FillSlice(r, w, settable, tag, plan);
            return;
          }
          if !w.RStruct? {
            return Crash, w;
          }
          var k := Lookup(w.fields, e.key);
          if k < 0 {
            var res := FillSimple(r, RZero, tag);
            var st := Store(RZero, false, Step(res, r.pos));
            return st.out, w;
          }
          var f := w.fields[k];
          FieldLower(w.fields, k);
          var x;
          out, x := FillField(r, f.val, settable && f.exported, tag, plan);
          next := RStruct(w.fields[k := f.(val := x)]);
        case Node(entries) =>
          if !w.RStruct? {
            return Crash, w;
          }
          var k := Lookup(w.fields, e.key);
          if k < 0 {
            var ignored;
            out, ignored := FillStruct(r, RZero, false, entries);
          } else {
            var f := w.fields[k];
            FieldLower(w.fields, k);
            var x;
            out, x := FillStruct(r, f.val, settable && f.exported, entries);
            next := RStruct(w.fields[k := f.(val := x)]);
          }
        case Other(kind) =>
          out := if kind == String || kind == Map then Crash else Fail("unrecognized type " + Name(kind));
        case NilVal =>
          out := Crash;
      }
    }

    /** The branch of `fillStruct` that fills the field a tag entry names. */
    method FillField(r: Rand, x: Rec, settable: bool, tag: string, plan: seq<Entry>) returns (out: Outcome, y: Rec)
      requires r.Valid()
      modifies r
      ensures Filled(out, y, r.pos) == FieldFill(Deps(), r.stream, x, settable, tag, plan, old(r.pos))
      decreases Height(x), 2
    {
      if x.RStruct? {
        out, y := FillStruct(r, x, settable, plan);
      } else if x.RSlice? {
        out, y := FillSlice(r, x, settable, tag, plan);
      } else {
        var res := FillSimple(r, x, tag);
        var st := Store(x, settable, Step(res, r.pos));
        out, y := st.out, st.rec;
      }
    }

    /** `m.fillSlice(r, tag, v, plan)`: the elements in order; the first failure is returned at once. */
    method FillSlice(r: Rand, v: Rec, settable: bool, tag: string, plan: seq<Entry>) returns (out: Outcome, w: Rec)
      requires r.Valid() && v.RSlice?
      modifies r
      ensures Filled(out, w, r.pos) == SliceFill(Deps(), r.stream, v, settable, tag, plan, 0, old(r.pos))
      decreases Height(v), 0
    {
      ghost var spec := SliceFill(Deps(), r.stream, v, settable, tag, plan, 0, r.pos);
      w := v;
      GrownRefl(v);
      var j := 0;
      while j < |w.items|
        invariant r.Valid() && Grown(w, v) && w.RSlice? && j <= |w.items|
        invariant SliceFill(Deps(), r.stream, w, settable, tag, plan, j, r.pos) == spec
        decreases |w.items| - j
      {
        GrownHeight(w, v);
        var x := w.items[j];
        ItemLower(w.elemKind, w.items, j);
        var sub: Filled;
        if x.RStruct? {
          var o, y := FillStruct(r, x, settable, plan);
          sub := Filled(o, y, r.pos);
        } else {
          var res := FillSimple(r, x, tag);
          sub := Store(x, settable, Step(res, r.pos));
        }
        SetItemShape(w.elemKind, w.items, j, sub.rec);
        var next := RSlice(w.elemKind, w.items[j := sub.rec]);
        GrownTrans(next, w, v);
        if !sub.out.Pass? {
          return sub.out, next;
        }
        w := next;
        j := j + 1;
      }
      out := Pass;
    }

    /** `m.Fill(model)`: refuses anything but a pointer; builds and keeps the plan when the maker
        has none; then fills the pointed-to record from a source seeded with the maker's seed. */
    method Fill(arg: Arg) returns (out: Outcome)
      requires Valid()
      modifies this, Targets(arg)
      ensures seed == old(seed) && funcs == old(funcs)
      ensures arg.NonPointer? ==> out == Fail("non-pointer argument") && fields == old(fields)
      ensures arg.Pointer? ==>
        var f := FillOf(Deps(), source(seed), old(fields), old(arg.box.rec));
        out == f.0 && fields == f.1 && arg.box.rec == f.2
    {
      if arg.NonPointer? {
        return Fail("non-pointer argument");
      }
      SeededAt(source, seed);
      var v := arg.box.rec;
      if |fields| == 0 {
        var g := BuildGraph(v);
        if g.Panic? {
          return Crash;
        }
        fields := g.value;
      }
      var r := new Rand(source(seed));
      var w;
      out, w := FillStruct(r, v, true, fields);
      arg.box.rec := w;
    }
  }

  // ---- End to end ----

  /** A struct whose one exported field carries a tag naming no engine: the maker builds the
      plan from the tag and fails with "option not available " and the tag, writing nothing. */
  lemma UnknownOptionFails(env: Env, src: Stream, name: string, kind: Kind, x: Value, tag: string)
    requires Productive(src) && tag != [] && OptionValueOf(tag) == []
    ensures var v := RStruct([Field(name, true, tag, RScalar(kind, x))]);
      FillOf(env, src, [], v) == (Fail("option not available " + tag), [Entry(name, Tag(tag))], v)
  {
    var v := RStruct([Field(name, true, tag, RScalar(kind, x))]);
    var plan := [Entry(name, Tag(tag))];
    assert GraphFrom(v, 1, plan) == Ok(plan);
    assert GraphFrom(v, 0, []) == GraphFrom(v, 1, [] + plan);
    assert Graph(v) == Ok(plan);
    assert Lookup(v.fields, name) == 0;
    var st := Store(RScalar(kind, x), true, SimpleFill(env, src, RScalar(kind, x), tag, 0));
    assert st == Filled(Fail("option not available " + tag), RScalar(kind, x), 0);
    assert v.fields[0 := v.fields[0].(val := st.rec)] == v.fields;
    assert EntryFill(env, src, v, true, plan, 0, 0) == Filled(Fail("option not available " + tag), v, 0);
  }

  /** One maker filling two records in turn keeps the plan it built for the first: after a
      struct whose field `name` carries a tag naming no engine, a struct with a scalar field
      of that name fails in the same way, whatever its own tags say. */
  lemma CachedPlanOutlivesItsRecord(env: Env, src1: Stream, src2: Stream, name: string, kind: Kind, x: Value, tag: string, d: Rec)
    requires Productive(src1) && Productive(src2) && tag != [] && OptionValueOf(tag) == []
    requires d.RStruct? && 0 <= Lookup(d.fields, name) && d.fields[Lookup(d.fields, name)].val.RScalar?
    ensures var first := FillOf(env, src1, [], RStruct([Field(name, true, tag, RScalar(kind, x))]));
      first.0 == Fail("option not available " + tag) && first.1 == [Entry(name, Tag(tag))] &&
      FillOf(env, src2, first.1, d) == (Fail("option not available " + tag), first.1, d)
  {
    UnknownOptionFails(env, src1, name, kind, x, tag);
    var plan := [Entry(name, Tag(tag))];
    var k := Lookup(d.fields, name);
    var f := d.fields[k];
    var st := Store(f.val, f.exported, SimpleFill(env, src2, f.val, tag, 0));
    assert st == Filled(Fail("option not available " + tag), f.val, 0);
    assert d.fields[k := f.(val := st.rec)] == d.fields;
    assert EntryFill(env, src2, d, true, plan, 0, 0) == Filled(Fail("option not available " + tag), d, 0);
  }

  /** "test123" names no engine. */
  lemma Test123NamesNoEngine()
    ensures OptionValueOf("test123") == []
  {
    assert "test123"[..4] != RandOption by { assert "test123"[0] != RandOption[0]; }
    assert "test123"[..5] != RegexOption by { assert "test123"[0] != RegexOption[0]; }
    assert "test123"[..4] != FuncOption by { assert "test123"[0] != FuncOption[0]; }
  }

  /** A slice of structs whose element struct has a struct field: the plan gives the slice a
      nested map whose entry is itself a nested map, and `fillStruct` then looks a field up by
      name on the slice, which panics, before anything is filled. */
  lemma NestedStructInSliceCrashes(env: Env, src: Stream, name: string, inner: string, xs: seq<Rec>, g: Rec)
    requires Productive(src) && |xs| > 0 && g.RStruct? && Graph(g).Ok?
    requires xs[0] == RStruct([Field(inner, true, [], g)])
    ensures var v := RStruct([Field(name, true, [], RSlice(Struct, xs))]);
      FillOf(env, src, [], v).0 == Crash
  {
    OneStructFieldPlan(inner, g);
    var eplan := [Entry(inner, Node(Graph(g).value))];
    OneStructFieldPlan(name, RSlice(Struct, xs));
    var v := RStruct([Field(name, true, [], RSlice(Struct, xs))]);
    var plan := [Entry(name, Node(eplan))];
    assert Lookup(v.fields, name) == 0;
    var sub := StructFill(env, src, RSlice(Struct, xs), true, eplan, 0, 0);
    assert EntryFill(env, src, RSlice(Struct, xs), true, eplan, 0, 0).out == Crash;
    assert sub.out == Crash;
    assert EntryFill(env, src, v, true, plan, 0, 0).out == Crash;
  }

  /** The plan of a struct whose one field is exported, untagged and holds a struct or a
      non-empty slice of structs: one nested map, the plan of the (first) inner struct. */
  lemma OneStructFieldPlan(name: string, x: Rec)
    requires x.RStruct? || (x.RSlice? && x.elemKind == Struct && |x.items| > 0)
    requires var y := if x.RStruct? then x else x.items[0]; Graph(y).Ok?
    ensures var y := if x.RStruct? then x else x.items[0];
      Graph(RStruct([Field(name, true, [], x)])) == Ok([Entry(name, Node(Graph(y).value))])
  {
    var y := if x.RStruct? then x else x.items[0];
    var v := RStruct([Field(name, true, [], x)]);
    var plan := [Entry(name, Node(Graph(y).value))];
    assert GraphFrom(v, 1, plan) == Ok(plan);
    assert GraphFrom(v, 0, []) == GraphFrom(v, 1, [] + plan);
  }
}
