/** The delegate invoker: a `func[name]` tag names a function of the maker's function map, and
    the string it returns is converted to the field's kind. */
module FuncMaker {
  import opened Wrappers
  import opened Kinds
  import opened Strings
  import opened Strconv

  /** `strconv.ParseFloat(s, 64)` and `strconv.ParseComplex(s, 128)`: the value, or the
      `*NumError` text. Their digit-to-float conversion is not part of this model. */
  datatype FloatParsers = FloatParsers(parseFloat: string -> Result<Float>, parseComplex: string -> Result<(Float, Float)>)

  /** `getFuncName`: strips one leading `func[` and one trailing `]`, each only when present. */
  function GetFuncName(tag: string): (name: string)
    ensures HasPrefix(tag, "func[") && HasSuffix(tag, "]") && |tag| >= 6 ==> tag == "func[" + name + "]"
    ensures !HasPrefix(tag, "func[") && !HasSuffix(tag, "]") ==> name == tag
    ensures HasPrefix(tag, "func[") && !HasSuffix(tag, "]") ==> tag == "func[" + name
    ensures !HasPrefix(tag, "func[") && HasSuffix(tag, "]") ==> tag == name + "]"
  {
    TrimSuffix(TrimPrefix(tag, "func["), "]")
  }

  /** The name in a `func[name]` tag comes back unchanged. */
  lemma FuncNameOfTag(name: string)
    ensures GetFuncName("func[" + name + "]") == name
  {
    var tag := "func[" + name + "]";
    assert tag[..5] == "func[";
    assert tag[5..] == name + "]";
    assert (name + "]")[|name|..] == "]";
    assert (name + "]")[..|name|] == name;
  }

  /** `fillFuncSimple` on a field of kind `kind` tagged `tag`: the value to store in the field,
      or the error. `funcs[name]` is the string the delegate registered under `name` returns. */
  function FillFunc(funcs: map<string, string>, fp: FloatParsers, kind: Kind, tag: string): (r: Result<Value>)
    ensures GetFuncName(tag) !in funcs ==> r == Err("map missing fn " + GetFuncName(tag))
    ensures r.Ok? ==> Fits(kind, r.value)
  {
    var name := GetFuncName(tag);
    if name !in funcs then Err("map missing fn " + name)
    else
      var out := funcs[name];
      if IsSigned(kind) then
        var p := ParseInt(out);
        if p.err.Some? then Err(p.err.value) else Ok(IntV(WrapSigned(p.value, Bits(kind))))
      else if IsUnsigned(kind) then
        var p := ParseUint(out);
        if p.err.Some? then Err(p.err.value) else Ok(UintV(WrapUnsigned(p.value, Bits(kind))))
      else if IsFloat(kind) then
        var f := fp.parseFloat(out);
        if !f.Ok? then f.Propagate() else Ok(FloatV(f.value))
      else if IsComplex(kind) then
        var c := fp.parseComplex(out);
        if !c.Ok? then c.Propagate() else Ok(ComplexV(c.value.0, c.value.1))
      else if kind == String then Ok(StrV(out))
      else if kind == Bool then
        var b := ParseBool(out);
        if !b.Ok? then b.Propagate() else Ok(BoolV(b.value))
      else Err("kind not supported: " + Name(kind))
  }

  /** A string field stores the delegate's output unchanged. */
  lemma StringFieldStoresOutput(funcs: map<string, string>, fp: FloatParsers, tag: string)
    requires GetFuncName(tag) in funcs
    ensures FillFunc(funcs, fp, String, tag) == Ok(StrV(funcs[GetFuncName(tag)]))
  {}

  /** For the kinds that parse the output, a parse error is returned as the parser wrote it. */
  lemma ParseErrorsReturned(funcs: map<string, string>, fp: FloatParsers, kind: Kind, tag: string)
    requires GetFuncName(tag) in funcs
    ensures var out := funcs[GetFuncName(tag)]; var r := FillFunc(funcs, fp, kind, tag);
      (IsSigned(kind) && ParseInt(out).err.Some? ==> r == Err(ParseInt(out).err.value)) &&
      (IsUnsigned(kind) && ParseUint(out).err.Some? ==> r == Err(ParseUint(out).err.value)) &&
      (IsFloat(kind) && fp.parseFloat(out).Err? ==> r == Err(fp.parseFloat(out).msg)) &&
      (IsComplex(kind) && fp.parseComplex(out).Err? ==> r == Err(fp.parseComplex(out).msg)) &&
      (kind == Bool && ParseBool(out).Err? ==> r == Err(ParseBool(out).msg))
  {}

  /** For each kind family, a parse without error stores the parsed value, integers truncated
      to the field's width; a kind outside the six families is refused by name. */
  lemma ParsedValuesStored(funcs: map<string, string>, fp: FloatParsers, kind: Kind, tag: string)
    requires GetFuncName(tag) in funcs
    ensures var out := funcs[GetFuncName(tag)]; var r := FillFunc(funcs, fp, kind, tag);
      (IsSigned(kind) && ParseInt(out).err.None? ==> r == Ok(IntV(WrapSigned(ParseInt(out).value, Bits(kind))))) &&
      (IsUnsigned(kind) && ParseUint(out).err.None? ==> r == Ok(UintV(WrapUnsigned(ParseUint(out).value, Bits(kind))))) &&
      (IsFloat(kind) && fp.parseFloat(out).Ok? ==> r == Ok(FloatV(fp.parseFloat(out).value))) &&
      (IsComplex(kind) && fp.parseComplex(out).Ok? ==>
        r == Ok(ComplexV(fp.parseComplex(out).value.0, fp.parseComplex(out).value.1))) &&
      (kind == Bool && ParseBool(out).Ok? ==> r == Ok(BoolV(ParseBool(out).value)))
    ensures !IsSigned(kind) && !IsUnsigned(kind) && !IsFloat(kind) && !IsComplex(kind) && kind != String && kind != Bool ==>
      FillFunc(funcs, fp, kind, tag) == Err("kind not supported: " + Name(kind))
  {}

  /** A delegate returning a run of decimal digits fills an integer field with that number,
      truncated to the field's width, when it fits the 64-bit parser. */
  lemma DigitsStored(funcs: map<string, string>, fp: FloatParsers, kind: Kind, tag: string)
    requires GetFuncName(tag) in funcs
    ensures var out := funcs[GetFuncName(tag)]; var r := FillFunc(funcs, fp, kind, tag);
      out != [] && AllDigits(out) ==>
        (IsSigned(kind) && Decimal(out) <= MaxInt64 ==> r == Ok(IntV(WrapSigned(Decimal(out), Bits(kind))))) &&
        (IsUnsigned(kind) && Decimal(out) <= MaxUint64 ==> r == Ok(UintV(WrapUnsigned(Decimal(out), Bits(kind)))))
  {
    var out := funcs[GetFuncName(tag)];
    if out != [] && AllDigits(out) {
      if IsSigned(kind) && Decimal(out) <= MaxInt64 {
        ParseIntOfDigits(out);
      }
      if IsUnsigned(kind) && Decimal(out) <= MaxUint64 {
        ParseUintOfDigits(out);
      }
    }
  }

  /** A delegate returning "12" fills an `int64` field with 12. */
  lemma IntFromDelegate(funcs: map<string, string>, fp: FloatParsers)
    requires "int64" in funcs && funcs["int64"] == "12"
    ensures FillFunc(funcs, fp, Int64, "func[int64]") == Ok(IntV(12))
  {
    NameOfLiteralTag("int64", "func[int64]");
    ParseTwelve();
  }

  lemma ParseTwelve()
    ensures ParseInt("12") == Parsed(12, None)
  {
    assert AllDigits("12") && Decimal("12") == 12;
    ParseIntOfDigits("12");
  }

  /** `GetFuncName` on a tag written out as one literal. */
  lemma NameOfLiteralTag(name: string, tag: string)
    requires tag == "func[" + name + "]"
    ensures GetFuncName(tag) == name
  {
    FuncNameOfTag(name);
  }

  /** A delegate returning "t" fills a `bool` field with true. */
  lemma BoolFromDelegate(funcs: map<string, string>, fp: FloatParsers)
    requires "bool" in funcs && funcs["bool"] == "t"
    ensures FillFunc(funcs, fp, Bool, "func[bool]") == Ok(BoolV(true))
  {
    NameOfLiteralTag("bool", "func[bool]");
  }

  /** A name that is not registered is reported, whatever the field's kind. */
  lemma MissingDelegate(funcs: map<string, string>, fp: FloatParsers, kind: Kind)
    requires "missing" !in funcs
    ensures FillFunc(funcs, fp, kind, "func[missing]") == Err("map missing fn missing")
  {
    NameOfLiteralTag("missing", "func[missing]");
  }
}
