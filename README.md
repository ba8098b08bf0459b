# gomaker in Dafny

gomaker fills Go records with synthetic values. A `Maker` reads each field's `gomaker` struct
tag and builds a plan of the record. It then walks the record along that plan and hands each
field to one of three engines:

- `rand[min;max;step]` draws a number or a letter string within bounds;
- `regex[pattern]` synthesises a string that the pattern matches;
- `func[name]` converts the string a registered delegate returns.

This project models that core and proves what it promises:
- for a well-formed pattern, the regex generator only produces strings in the pattern's language (a surrogate code point in a class or a literal is the exception, see "## Left out");
- constraint parsing keeps each default unless the group overrides it;
- `randString` yields exactly `n` letters;
- the delegate invoker returns each parse error unchanged;
- the maker writes nothing outside the plan, caches the plan, and fills every tagged field when it passes.

Modules, one per source file, plus shared foundations:

- `Wrappers` (`wrappers.dfy`) holds the outcomes. `Result` is a value, an error with its exact text, or a Go panic. `Outcome` is the same for functions that return only `error`.
- `Kinds` (`kinds.dfy`) models `reflect.Kind`, the values a field holds, Go's integer truncation, and `Fits`, which says a value suits a kind.
- `Strings` and `Strconv` (`strconv.dfy`):
  - `Strings` holds `strings.HasPrefix`, `TrimPrefix` and the like.
  - `Strconv` holds the decimal `ParseInt`/`ParseUint`/`Atoi`/`ParseBool` with their `*NumError` texts.
- `Entropy` (`entropy.dfy`) models `*rand.Rand` as a class: a stream of draws and a cursor. Every `Intn`, `Int31n`, `Int63` or `Float64` call consumes one draw.
- `RandomMaker` (`random_maker.dfy`) covers:
  - `getOptions` and `constraints.Validate`;
  - `randString`, as a loop over a byte buffer proved against a specification function;
  - the draws per kind and `fillRandomSimple`.
- `RegexMaker` (`regex_maker.dfy`) models the parsed operator tree as a datatype. It has:
  - a language (`Matches`);
  - `generate` and its helpers as methods over the shared `Rand`, each proved equal to a specification function;
  - soundness of generation, and `fillRegexSimple`.
- `FuncMaker` (`func_maker.dfy`) covers `getFuncName` and `fillFuncSimple`.
- `GoMaker` (`gomaker.dfy`) covers:
  - the options and `New`;
  - `optionValueOf`, `fillSimple`, `buildGraph`, `fillStruct`, `fillSlice` and `Maker.Fill`.

  The record is a value tree, `Rec`, that stands in for `reflect.Value`. A plan is a sequence of entries, and the order of the sequence stands for one iteration order of the plan map. The fillers return the updated record, and `Fill` writes it back through a `Box`, the pointer.

Each method is proved equal to a ghost specification function of the stream and the old cursor. The properties are then proved about those functions. For example, `Maker.FillStruct` ends in exactly the state `StructFill` describes. `GenSound` then shows that every string `Gen` produces for a well-formed tree is in that tree's language.

Where the Go source is inconsistent with itself, the model follows what the code does. Three cases:
- `fillRandomSimple` is declared with a `seed int64` parameter but is passed the shared `*rand.Rand` (random_maker.go:46, gomaker.go:137). The model passes the shared source.
- `funcMap` is declared `func() any` in gomaker.go:24 but used as `func() string` in func_maker.go:10. Delegates are string-valued.
- `buildGraph` on an empty slice of structs panics at `Index(0)`. The model keeps that input and its panic: `Graph` returns `Panic` for it.

## Model

| member | source | states |
|---|---|---|
| Wrappers.Result.Propagate | regex_maker.go:29-32 | a failure passed up keeps its error text, and a panic stays a panic |
| Kinds.WrapSigned | func_maker.go:19-23 | storing into a signed field truncates to the field's width in two's complement; a value in range is kept |
| Kinds.WrapUnsigned | func_maker.go:25-29 | storing into an unsigned field truncates modulo 2^width; a value in range is kept |
| Kinds.Bits | random_maker.go:54-57 | the integer kinds have widths 8, 16, 32 or 64 |
| Kinds.Pow2Widths | random_maker.go:54-57 | the powers of two at the integer widths |
| Strings.TrimPrefix | func_maker.go:57 | drops one leading prefix when present; otherwise returns the string unchanged |
| Strings.TrimSuffix | func_maker.go:58 | drops one trailing suffix when present; otherwise returns the string unchanged |
| Strconv.ParseInt | func_maker.go:19 | the value is always within the int64 range |
| Strconv.ParseBool | func_maker.go:45 | either a boolean or the `ParseBool` syntax-error text for that input |
| Strconv.Atoi | random_maker.go:76-81 | `Atoi` succeeds exactly when `ParseInt` reports no error |
| Strconv.ParseIntOfDigits | func_maker.go:19-23 | a decimal string within int64 parses to its value with no error |
| Strconv.ParseUintOfDigits | func_maker.go:25-29 | a decimal string within uint64 parses to its value with no error |
| Strconv.ParseIntOfNegativeDigits | func_maker.go:19-23 | a minus sign followed by digits parses to the negated value |
| Strconv.ParseIntRejectsLetter | regex_maker.go:39 | text starting with a letter gives 0 and the invalid-syntax error |
| Strconv.ScanDigits | func_maker.go:25 | scanning an all-digit string within uint64 yields its decimal value without error |
| Entropy.Int63Of | random_maker.go:103 | an `Int63` draw is below 2^63 |
| Entropy.UnitOf | random_maker.go:95 | a `Float64` draw lies in [0, 1) |
| Entropy.NextUsable | random_maker.go:103-113 | the first chunk at or after a position that indexes a letter |
| Entropy.NextUsableSkip | random_maker.go:107-112 | skipping a chunk of 62 or more does not move the next usable chunk |
| Entropy.Rand.constructor | gomaker.go:66 | a fresh source reads its stream from the first draw |
| Entropy.Rand.Intn | regex_maker.go:88 | one draw taken, and the result lies in [0, n) |
| Entropy.Rand.Int63 | random_maker.go:103 | one draw taken, and the result is that draw's `Int63` value |
| Entropy.Rand.Float64 | random_maker.go:95 | one draw taken, and the result is that draw's unit value |
| RandomMaker.Validate | random_maker.go:29-44 | validation passes or fails with a message; it never panics |
| RandomMaker.ValidateOrder | random_maker.go:29-44 | the checks come in order: min above max first, then a negative step, then a fractional step for an integer kind; validation passes exactly when none applies |
| RandomMaker.FractionalStepAcceptedForNonIntegers | random_maker.go:36-42 | every kind other than the integer kinds accepts a fractional step |
| RandomMaker.FindFrom | random_maker.go:20 | a match of the bracket group yields two digit runs and a step text |
| RandomMaker.StepValue | random_maker.go:82-84 | the step group parses exactly when it is non-empty and its value is below the float32 overflow threshold (2^128 - 2^103); the value is then that number |
| RandomMaker.OptionsWithoutGroup | random_maker.go:72-75 | a tag without '[' keeps the defaults (1, 10, 1) |
| RandomMaker.OptionsOfGroup | random_maker.go:75-85 | each empty component keeps its own default, and each present one overrides it; a step at or above the float32 overflow keeps the default |
| RandomMaker.GetOptions | random_maker.go:72-88 | the bounds are always non-negative int64 values, and the step is non-negative and below the float32 overflow |
| RandomMaker.AtoiOfDigits | random_maker.go:76-81 | `Atoi` of a digit group succeeds exactly when it is non-empty and fits int64 |
| RandomMaker.OptionsOfBareTag | random_maker_test.go:14-19 | `rand` gives (1, 10, 1) |
| RandomMaker.OptionsOfFullGroup | random_maker_test.go:20-26 | `rand[2;11;.5]` gives (2, 11, 0.5) |
| RandomMaker.OptionsOfMinOnly | random_maker_test.go:27-33 | `rand[2;;]` gives (2, 10, 1) |
| RandomMaker.OptionsOfMaxOnly | random_maker_test.go:34-40 | `rand[;11;]` gives (1, 11, 1) |
| RandomMaker.ToInt64 | random_maker.go:89-92 | the conversion to int64 stays within the int64 range |
| RandomMaker.Letter | random_maker.go:22 | each of the 62 table entries is a letter or a digit |
| RandomMaker.Letters | random_maker.go:103-113 | the buffer is filled from its last index down; the suffix already written is kept; the chunk cursor only advances |
| RandomMaker.LettersAreLetters | random_maker.go:107-108 | every byte written comes from the letter table |
| RandomMaker.LastByteFirst | random_maker.go:103-109 | the last byte comes from the first usable chunk |
| RandomMaker.RandStringSpec | random_maker.go:101-116 | `randString(n)` yields exactly `n` letters and always takes at least one draw |
| RandomMaker.RandString | random_maker.go:101-116 | the loop over `i`, `cache` and `remain` ends in exactly the string and cursor the specification gives |
| RandomMaker.RandFloat64 | random_maker.go:94-99 | one draw, scaled by the constraints |
| RandomMaker.RandInt64 | random_maker.go:89-92 | one draw, scaled and then truncated to int64 |
| RandomMaker.WholeStepDraw | random_maker.go:94-99 | with step 1 and 0 <= min <= max, a draw is a whole number within [min, max], below max when min < max |
| RandomMaker.FillRandom | random_maker.go:46-70 | a value produced always fits the field's kind |
| RandomMaker.FillRandomChecksFirst | random_maker.go:46-70 | a constraint that fails validation is returned before any draw, and a kind with no draw gives "kind not supported: " plus its name, also without a draw |
| RandomMaker.FillRandomSimple | random_maker.go:46-70 | validates before drawing, then draws by kind, exactly as `FillRandom` |
| RandomMaker.RandomIntWithinBounds | random_maker.go:53-55 | an `int`/`int64` field with a step of 1 gets a value in [min, max] from one draw |
| RandomMaker.RandomStringIsLetters | random_maker.go:62-63 | a string field receives only letters |
| RegexMaker.RuneChar | regex_maker.go:101 | `string(rune)`: a scalar value maps to itself, anything else to U+FFFD |
| RegexMaker.RuneString | regex_maker.go:101 | one character per rune, converted as `string(rune)` |
| RegexMaker.Gen | regex_maker.go:57-84 | the draw cursor only advances; every error is "generator failed" or "op didnt match NoMatch" |
| RegexMaker.GenTimes | regex_maker.go:89-95 | no pass of the loop emits the accumulated text unchanged with no draw; a successful run only appends to it |
| RegexMaker.GenRepeat | regex_maker.go:86-97 | the cursor only advances, and a repetition creates no error of its own |
| RegexMaker.GenConcat | regex_maker.go:113-124 | the cursor only advances, and a child's error is replaced by "generator failed" |
| RegexMaker.GenAlternate | regex_maker.go:137-148 | the cursor only advances, and an alternation creates no error of its own |
| RegexMaker.ClassDraws | regex_maker.go:127-133 | one draw per pair, and exactly one rune per pair |
| RegexMaker.GenCharClass | regex_maker.go:126-135 | the class generator never returns an error value (only a result or a panic) |
| RegexMaker.Generate | regex_maker.go:57-84 | the recursive switch ends in exactly the result and cursor `Gen` gives |
| RegexMaker.RepeatingGenerator | regex_maker.go:86-97 | the buffer loop ends in exactly what `GenRepeat` gives |
| RegexMaker.ConcatGenerator | regex_maker.go:113-124 | the buffer loop ends in exactly what `GenConcat` gives |
| RegexMaker.AlternateGenerator | regex_maker.go:137-148 | the append loop ends in exactly what `GenAlternate` gives |
| RegexMaker.CharClassGenerator | regex_maker.go:126-135 | the in-place `res` loop ends in exactly what `GenCharClass` gives |
| RegexMaker.DrawRunes | regex_maker.go:129-133 | the `res` loop either fills every cell with the rune drawn for its pair (one draw per pair, in order) or stops exactly where `charClassGenerator` panics on an empty pair |
| RegexMaker.DrewStep | regex_maker.go:130-132 | one pass over a non-empty pair takes exactly one draw and writes cell `i` alone, leaving the cells before it as they were |
| RegexMaker.ClassDrawsPrefix | regex_maker.go:130-133 | after `i` passes over non-empty pairs the loop has drawn exactly `i` times and holds one rune per pair, the j-th drawn from draw `pos + j` |
| RegexMaker.ClassPanics | regex_maker.go:130-133 | the class generator panics at the first empty pair, with exactly as many draws taken as pairs before it |
| RegexMaker.ClassPicks | regex_maker.go:126-135 | with every pair non-empty, the result is the rune of the pair picked by the draw after the last pair's draw; with no pairs, `Intn(0)` panics |
| RegexMaker.GenBounds | regex_maker.go:59-64 | Star emits 0..10 copies, Plus 1..10 and Quest 0..1; the lower bounds are those of the operator's language |
| RegexMaker.GenSound | regex_maker.go:57-84 | for a well-formed tree, generation succeeds and its output is in the tree's language |
| RegexMaker.RepetitionSound | regex_maker.go:59-66 | a repetition's output is a power of its child within the generator's count range |
| RegexMaker.GenRepeatSound | regex_maker.go:86-97 | with 0 <= min <= max, the output is between min and max independent copies of the child |
| RegexMaker.GenTimesSound | regex_maker.go:89-95 | k passes of the loop append exactly k words of the child's language |
| RegexMaker.GenConcatSound | regex_maker.go:113-124 | concatenation yields the children's words in order |
| RegexMaker.GenAlternateSound | regex_maker.go:137-148 | the chosen result is in the language of one of the branches |
| RegexMaker.ClassDrawsInPairs | regex_maker.go:130-133 | the draws succeed exactly when every pair is non-empty, and the i-th rune lies in the i-th pair |
| RegexMaker.ClassEmitsOneRune | regex_maker.go:126-135 | success exactly when there is at least one pair and all pairs are non-empty; the output is then one rune from some pair |
| RegexMaker.CharClassSound | regex_maker.go:126-135 | for a class of non-empty pairs in which U+FFFD is present whenever some pair reaches into the surrogates, the output matches the class |
| RegexMaker.SplitSurrogateClassSound | regex_maker.go:126-135 | a class whose surrogate-spanning pair lacks U+FFFD while another pair holds it, as for `\PL`, always emits a rune the class matches |
| RegexMaker.SurrogateClassEscapes | regex_maker.go:126-135 | the class of the surrogates D800-DFFF always emits U+FFFD, which that class does not match |
| RegexMaker.ConcatMasksErrors | regex_maker.go:117-119 | every error from concatenation is "generator failed" |
| RegexMaker.ErrorsPassThroughAlternation | regex_maker.go:137-148 | for any alternatives, when the ones before the m-th succeed and the m-th fails, the alternation returns the m-th one's outcome and draws unchanged |
| RegexMaker.CaptureIsTransparent | regex_maker.go:150-152 | a capture group generates exactly what its subexpression does, errors included |
| RegexMaker.ErrorsMaskedInConcatenation | regex_maker.go:113-124 | for any subexpressions, the first failing one ends the concatenation: an error becomes "generator failed", a panic stays a panic, and the draws are the failing one's |
| RegexMaker.ErrorsPassThroughRepetition | regex_maker.go:86-97 | for any child and bounds, when the copies before the m-th succeed and the m-th fails (m below the drawn count), the repetition returns that copy's outcome and draws unchanged |
| RegexMaker.ZeroWidthEmitsNothing | regex_maker.go:79-80 | anchors, boundaries and the empty match emit "" and take no draw |
| RegexMaker.AnyCharEmitsOneLetter | regex_maker.go:106-108 | any-char emits one letter from the table, with or without newline |
| RegexMaker.LiteralEmitsRunes | regex_maker.go:99-104 | a literal emits its runes verbatim and takes no draw |
| RegexMaker.TagShape | regex_maker.go:15-20 | a tag of the accepted shape is `regex[`, a pattern without a newline, and `]` |
| RegexMaker.PatternRoundTrip | regex_maker.go:15-49 | every pattern without a newline, put between `regex[` and `]`, makes an accepted tag whose extracted pattern is that pattern again |
| RegexMaker.PatternOf | regex_maker.go:47-49 | a `regex[...]` tag yields the text between the brackets |
| RegexMaker.FillRegex | regex_maker.go:19-45 | a value produced fits the field's kind |
| RegexMaker.StoreGenerated | regex_maker.go:30-44 | converting the generated text takes no further draw; a generator error is returned as is and a panic stays a panic; a string field stores the text, a signed integer field stores `ParseInt`'s value with its error ignored, truncated to the field's width; any other kind gives "kind not supported: " and the kind's name |
| RegexMaker.FillRegexStoresByKind | regex_maker.go:34-43 | once the pattern generates, digits within int64 are stored in a signed integer field as their decimal value truncated to the width, and a kind other than string or signed integer is refused by name with no further draw |
| RegexMaker.FillRegexSimple | regex_maker.go:19-45 | checks the tag, parses, generates and converts by kind, exactly as `FillRegex` |
| RegexMaker.FillRegexChecksFirst | regex_maker.go:20-27 | a malformed tag gives "regex validation failed" before any parse, and a failed parse gives "regex parse failed"; neither takes a draw |
| RegexMaker.FillRegexSound | regex_maker.go:29-37 | for a well-formed parsed pattern, a string field receives a string the pattern matches |
| RegexMaker.FillRegexIntIgnoresParseError | regex_maker.go:38-40 | an integer field whose generated text starts with neither a sign nor a digit receives 0 |
| FuncMaker.GetFuncName | func_maker.go:56-60 | strips one leading `func[` and one trailing `]`, each only when present |
| FuncMaker.FuncNameOfTag | func_maker.go:56-60 | the name in `func[name]` comes back unchanged |
| FuncMaker.FillFunc | func_maker.go:10-54 | a missing name gives "map missing fn" and the name; a value produced fits the field's kind |
| FuncMaker.ParsedValuesStored | func_maker.go:17-52 | for each of the int, uint, float, complex and bool families a parse without error stores the parsed value, integers truncated to the field's width; any other kind except string gives "kind not supported: " and the kind's name |
| FuncMaker.DigitsStored | func_maker.go:18-29 | a delegate returning decimal digits within the 64-bit range fills a signed or unsigned field with that number truncated to the field's width |
| FuncMaker.StringFieldStoresOutput | func_maker.go:42-43 | a string field stores the delegate's output verbatim |
| FuncMaker.ParseErrorsReturned | func_maker.go:18-49 | for int, uint, float, complex and bool fields, a parse error is returned as the parser wrote it |
| FuncMaker.IntFromDelegate | gomaker_test.go:273-275 | a delegate returning "12" fills an int64 field with 12 |
| FuncMaker.BoolFromDelegate | func_maker.go:44-49 | a delegate returning "t" fills a bool field with true |
| FuncMaker.MissingDelegate | gomaker_test.go:256-260 | `func[missing]` gives "map missing fn missing" whatever the kind |
| GoMaker.OptionValueOf | gomaker.go:171-182 | the first of `rand`, `regex`, `func` that the tag starts with, otherwise ""; `rel` is never returned |
| GoMaker.SimpleFill | gomaker.go:134-152 | a tag naming no engine gives "option not available" plus the tag; `rand`, `regex` and `func` tags go to the random, regex and delegate engines respectively; a value produced fits the field's kind |
| GoMaker.Store | gomaker.go:134-152 | a value is stored exactly when the engine succeeds on a settable scalar; otherwise the field is unchanged, and an engine error is returned |
| GoMaker.Lookup | gomaker.go:113 | `FieldByName`: the first field with that name, or none |
| GoMaker.StructFill | gomaker.go:104-132 | the record keeps its shape; only fields named in the plan change |
| GoMaker.EntryFill | gomaker.go:107-129 | one entry changes only the field it names, keeps the record's shape, and a passing tag entry leaves its scalar field holding a value of its kind |
| GoMaker.FieldFill | gomaker.go:113-121 | a struct field gets the whole plan, a slice field element by element, any other `fillSimple`; a scalar that passes holds a value of its kind |
| GoMaker.SliceFill | gomaker.go:154-169 | the slice keeps its length and shape, and the cursor only advances |
| GoMaker.ItemFill | gomaker.go:155-165 | a scalar element that passes holds a value of its kind, and the element keeps its shape |
| GoMaker.StructFillStopsAtFirstFailure | gomaker.go:104-132 | the walk returns the outcome of the first entry that fails or ends the walk, after every earlier entry passed and with what they wrote kept; when none fails it passes with every entry applied |
| GoMaker.SliceFillStopsAtFirstFailure | gomaker.go:154-169 | the first failing element's error is returned with no rollback: the elements before it hold what they became, the failing one what its own fill left, and the ones after it are untouched; when none fails it passes |
| GoMaker.Graph | gomaker.go:69-102 | `buildGraph` never returns an error; it panics exactly when the value is not a struct or some exported struct-typed field, at any depth, is an empty slice of structs; every entry comes from an exported field (the exact nested plan of a struct field, or of a struct slice's first element, otherwise its non-empty tag), and every such field has an entry |
| GoMaker.GraphFrom | gomaker.go:73-100 | the field loop only appends to the entries so far |
| GoMaker.BuildGraph | gomaker.go:69-102 | the loop that inserts one entry per planned field ends in exactly `Graph` |
| GoMaker.GrownHeight | gomaker.go:104-169 | filling never changes how deeply the record nests |
| GoMaker.PassWritesTagged | gomaker.go:104-132 | when `fillStruct` passes, every scalar field a tag entry names holds a value of its kind |
| GoMaker.StructFillHolds | gomaker.go:104-132 | when the walk passes along a plan that covers a struct, every exported tagged scalar field holds a value of its kind, at every depth |
| GoMaker.GraphCovers | gomaker.go:80-86 | the plan built from one value covers every value of the same Go type, so the first element's plan serves every element of a slice |
| GoMaker.FillWritesTaggedFields | gomaker_test.go:49-66 | when `Fill` passes, every exported, tagged scalar field holds a value of its kind, in nested structs and in every element of a slice too |
| GoMaker.TaggedFieldPlanned | gomaker.go:94-98 | the plan has a tag entry for every exported scalar field with a tag |
| GoMaker.Configure | gomaker.go:28-52 | each part of the state (seed, function map, plan) is the value the last option setting it gave, or the starting value when no option sets it |
| GoMaker.SeedOptionFixesConfig | gomaker_test.go:138-160 | makers built with a seed option end in the same state (seed, function map and plan), whatever the clock read |
| GoMaker.FillOf | gomaker.go:54-67 | an empty plan is built first, and a built plan is kept; a non-empty plan is reused; a panicking build crashes before anything is filled; the record keeps its shape |
| GoMaker.Maker.New | gomaker.go:28-52 | the clock as the seed, an empty function map and no plan, then each option applied in order |
| GoMaker.Maker.FillSimple | gomaker.go:134-152 | dispatches on the tag's option, exactly as `SimpleFill` |
| GoMaker.Maker.FillStruct | gomaker.go:104-132 | the loop over the plan ends in exactly the outcome, record and cursor `StructFill` gives |
| GoMaker.Maker.FillEntry | gomaker.go:107-129 | one pass of the loop ends in exactly the outcome, record and cursor `EntryFill` gives |
| GoMaker.Maker.FillField | gomaker.go:113-121 | the field branch ends in exactly what `FieldFill` gives |
| GoMaker.Maker.FillSlice | gomaker.go:154-169 | the element loop ends in exactly what `SliceFill` gives |
| GoMaker.Maker.Fill | gomaker.go:54-67 | a non-pointer gives "non-pointer argument" and leaves the maker alone; otherwise the plan is built or reused, a fresh source is seeded with the maker's seed, and the outcome, plan and record are those of `FillOf` |
| GoMaker.UnknownOptionFails | gomaker_test.go:40-43 | a field tagged with no engine makes `Fill` fail with "option not available" and the tag, writing nothing |
| GoMaker.CachedPlanOutlivesItsRecord | gomaker.go:59-66 | a plan built on the first `Fill` is kept, and a later `Fill` on a record of another type walks that old plan, failing on its entry |
| GoMaker.Test123NamesNoEngine | gomaker_test.go:23 | `test123` names no engine |
| GoMaker.NestedStructInSliceCrashes | gomaker.go:122-123 | in a slice of structs, a struct field of the element gets a nested-map entry, and `fillStruct` then calls `FieldByName` on the slice, which panics |

## Left out

- `regexp/syntax` parsing and `Simplify` (regex_maker.go:50-54) are foreign library code. They are the `parse` parameter of the maker, returning the simplified operator tree or nothing. The `regexp` patterns for tags are written out as predicates and scanners.
- The `math/rand` generator algorithm is not modelled. A source is an arbitrary stream of draws, `rand.NewSource` is the `source` parameter, and every call consumes one draw. The rejection loops inside Go's `Intn`/`Int31n` are left out.
- `Entropy.Productive`: every source is assumed to eventually produce a chunk below 62. On any other source `randString` never returns.
- RandomMaker.StepValue: does not round a step to float32 precision, because steps are exact reals; only the overflow to infinity is modelled.
- Floating point: draws and steps are exact reals. The rounding of `randFloat64`, NaN/Inf arithmetic and the float-to-int64 conversion beyond the range rule are not modelled.
- `strconv.ParseFloat`/`ParseComplex` in `fillFuncSimple` are oracles, the `fp` parameter.
- Strings are sequences of code points. UTF-8 encoding and the `unsafe` byte-to-string cast are not modelled, and neither is the escaping in `*NumError` texts (`strconv.Quote` is taken as plain quoting).
- Regex anchors and word boundaries are read as the empty string in the language, as the generator emits them. Case-folded literals are not modelled.
- RegexMaker.GenSound: soundness is not promised for a class with a pair reaching into the surrogates D800-DFFF when U+FFFD is not in the class (for instance `[^\x{FFFD}]` or `\p{Cs}`), nor for a literal surrogate such as `\x{D800}`. `string(rune)` (regex_maker.go:101, 134) turns a surrogate into U+FFFD, which such a pattern does not match, so the Go code itself emits a non-matching string there; `SurrogateClassEscapes` shows it.
- RegexMaker.ClassDraws: `Int31n` on a pair wider than 2^31 is not modelled as int32 overflow.
- The nil check in `literalGenerator` is unreachable and left out.
- GoMaker.FillWritesTaggedFields assumes the record is `Typed`: the elements of a slice share one Go type, which Go's typing guarantees and `Rec` does not.
- Reflection is reduced to `Rec`. Embedded fields are not modelled, nor the difference between a field's static and dynamic kind. Struct-tag parsing is also left out: each field carries its `gomaker` value already extracted.
- `Fill` on a nil model is left out.
- In-place update and aliasing: the fillers return the updated record, and only `Fill` writes through the pointer.
- Concurrency: the unsynchronised write to `m.fields` and the race test are not modelled.
- Go map iteration order is fixed by the order of a plan's entries. A plan given through `WithFieldsMapping` is a sequence of entries, and one that repeats a key, which a Go `map[string]any` cannot hold, is walked once per repetition. `range fields` (gomaker.go:106) visits a map in a randomised order, but the model walks a built plan in field order, so which failing entry is reported first, and which draws each field gets, follow that one order.
- Delegates are the strings they return, so how many times a delegate is called is not captured. A delegate is also taken to return the same string on every call: func_maker.go:19-45 calls `fn()` afresh for each field, so two fields tagged with one nondeterministic delegate can differ in Go but get the same value in the model.
- The time source in `New` is the `now` parameter.
- Benchmarks are not part of this model.
