/** The guarded activator decoder of vmix-tcp/src/acts.rs: the tokens of an
    `ACTS` notification (after the status) become one `ActivatorsData`
    variant, or an error. It checks token counts before indexing and
    falls back to zero for malformed numbers, so it never panics. */
module TcpActs {
  import opened Common
  import opened RustText
  import opened Activators

  // `parse_input_number` is `ParseU16Or0`: an unparseable number is 0.

  /** `parse_float`: an unparseable level is 0.0. */
  function ParseFloat(value: string, parse: string -> Option<F32>): (x: F32)
    ensures parse(value).None? ==> x == ZeroF32
    ensures parse(value).Some? ==> x == parse(value).value
  {
    match parse(value)
    case Some(v) => v
    case None => ZeroF32
  }

  /** `is_active`: only the exact token "1" means on. */
  predicate IsActive(value: string) {
    value == "1"
  }

  /** The number of argument tokens a keyword's shape reads. */
  function Arity(keyword: string): nat {
    if InInputBoolGroup(keyword) || InInputFloatGroup(keyword) then 2 else 1
  }

  function ArgCount(a: ActivatorsData): nat {
    if a.InputBool? || a.InputFloat? then 2 else 1
  }

  /** Reference meaning of a token list: `tokens` describe `a` when the
      keyword is `a`'s name, there are enough tokens for its shape, and each
      argument is what the token in its position reads as. */
  predicate Describes(tokens: seq<string>, a: ActivatorsData, parse: string -> Option<F32>) {
    |tokens| > ArgCount(a) && tokens[0] == Name(a) &&
    match a
    case InputBool(_, n, b) => n == ParseU16Or0(tokens[1]) && b == IsActive(tokens[2])
    case InputFloat(_, n, x) => n == ParseU16Or0(tokens[1]) && x == ParseFloat(tokens[2], parse)
    case SingleFloat(_, x) => x == ParseFloat(tokens[1], parse)
    case SingleBool(_, b) => b == IsActive(tokens[1])
  }

  /** `create_input_bool_variant`. */
  function CreateInputBoolVariant(values: seq<string>, idx: nat): (r: Outcome<ActivatorsData>)
    ensures !r.Panic?
    ensures |values| <= idx + 1 ==> r == Err(NotEnoughValues(InputBoolShape))
    ensures |values| > idx + 1 ==> (r.Ok? <==> InInputBoolGroup(values[0]))
    ensures r.Ok? ==> r.value.InputBool? && Name(r.value) == values[0]
    ensures r.Ok? ==> r.value.input == ParseU16Or0(values[idx]) && r.value.active == IsActive(values[idx + 1])
    ensures r.Err? && |values| > idx + 1 ==> r.error == UnknownVariant(InputBoolShape)
  {
    if |values| <= idx + 1 then Err(NotEnoughValues(InputBoolShape))
    else
      InputBoolKeywords(values[0]);
      var inputNum := ParseU16Or0(values[idx]);
      var activeVal := if |values| > idx + 1 then IsActive(values[idx + 1]) else false;
      match InputBoolKeyOf(values[0])
      case Some(k) => Ok(InputBool(k, inputNum, activeVal))
      case None => Err(UnknownVariant(InputBoolShape))
  }

  /** `create_input_float_variant`. */
  function CreateInputFloatVariant(values: seq<string>, idx: nat, parse: string -> Option<F32>): (r: Outcome<ActivatorsData>)
    ensures !r.Panic?
    ensures |values| <= idx + 1 ==> r == Err(NotEnoughValues(InputFloatShape))
    ensures |values| > idx + 1 ==> (r.Ok? <==> InInputFloatGroup(values[0]))
    ensures r.Ok? ==> r.value.InputFloat? && Name(r.value) == values[0]
    ensures r.Ok? ==> r.value.input == ParseU16Or0(values[idx]) && r.value.level == ParseFloat(values[idx + 1], parse)
    ensures r.Err? && |values| > idx + 1 ==> r.error == UnknownVariant(InputFloatShape)
  {
    if |values| <= idx + 1 then Err(NotEnoughValues(InputFloatShape))
    else
      InputFloatKeywords(values[0]);
      var inputNum := ParseU16Or0(values[idx]);
      var volume := if |values| > idx + 1 then ParseFloat(values[idx + 1], parse) else ZeroF32;
      match InputFloatKeyOf(values[0])
      case Some(k) => Ok(InputFloat(k, inputNum, volume))
      case None => Err(UnknownVariant(InputFloatShape))
  }

  /** `create_single_float_variant`. */
  function CreateSingleFloatVariant(values: seq<string>, idx: nat, parse: string -> Option<F32>): (r: Outcome<ActivatorsData>)
    ensures !r.Panic?
    ensures |values| <= idx ==> r == Err(NotEnoughValues(SingleFloatShape))
    ensures |values| > idx ==> (r.Ok? <==> InSingleFloatGroup(values[0]))
    ensures r.Ok? ==> r.value.SingleFloat? && Name(r.value) == values[0]
    ensures r.Ok? ==> r.value.level == ParseFloat(values[idx], parse)
    ensures r.Err? && |values| > idx ==> r.error == UnknownVariant(SingleFloatShape)
  {
    if |values| <= idx then Err(NotEnoughValues(SingleFloatShape))
    else
      SingleFloatKeywords(values[0]);
      var volume := ParseFloat(values[idx], parse);
      match SingleFloatKeyOf(values[0])
      case Some(k) => Ok(SingleFloat(k, volume))
      case None => Err(UnknownVariant(SingleFloatShape))
  }

  /** `create_single_bool_variant`. */
  function CreateSingleBoolVariant(values: seq<string>, idx: nat): (r: Outcome<ActivatorsData>)
    ensures !r.Panic?
    ensures |values| <= idx ==> r == Err(NotEnoughValues(SingleBoolShape))
    ensures |values| > idx ==> (r.Ok? <==> InSingleBoolGroup(values[0]))
    ensures r.Ok? ==> r.value.SingleBool? && Name(r.value) == values[0]
    ensures r.Ok? ==> r.value.active == IsActive(values[idx])
    ensures r.Err? && |values| > idx ==> r.error == UnknownVariant(SingleBoolShape)
  {
    if |values| <= idx then Err(NotEnoughValues(SingleBoolShape))
    else
      SingleBoolKeywords(values[0]);
      var activeVal := IsActive(values[idx]);
      match SingleBoolKeyOf(values[0])
      case Some(k) => Ok(SingleBool(k, activeVal))
      case None => Err(UnknownVariant(SingleBoolShape))
  }

  /** `TryFrom<&[String]> for ActivatorsData`: an empty slice is refused
      before any indexing, the keyword picks the shape, and the shape's
      helper reads the arguments from token 1 on. */
  function TryFrom(value: seq<string>, parse: string -> Option<F32>): (r: Outcome<ActivatorsData>)
    ensures !r.Panic?
    ensures |value| == 0 ==> r == Err(EmptyValueArray)
    ensures |value| > 0 && !IsKeyword(value[0]) ==> r == Err(UnknownActivator)
    ensures r.Ok? <==> |value| > 0 && IsKeyword(value[0]) && |value| > Arity(value[0])
    ensures r.Err? && |value| > 0 && IsKeyword(value[0]) ==> r.error.NotEnoughValues?
    ensures r.Ok? ==> Describes(value, r.value, parse)
  {
    if |value| == 0 then Err(EmptyValueArray)
    else
      var activatorType := value[0];
      GroupsDisjoint(activatorType);
      if InInputBoolGroup(activatorType) then CreateInputBoolVariant(value, 1)
      else if InInputFloatGroup(activatorType) then CreateInputFloatVariant(value, 1, parse)
      else if InSingleFloatGroup(activatorType) then CreateSingleFloatVariant(value, 1, parse)
      else if InSingleBoolGroup(activatorType) then CreateSingleBoolVariant(value, 1)
      else Err(UnknownActivator)
  }

  /** Decoding agrees with the reference meaning in both directions: the
      decoder yields `a` exactly when the tokens describe `a`. */
  lemma TryFromDescribes(value: seq<string>, a: ActivatorsData, parse: string -> Option<F32>)
    ensures TryFrom(value, parse) == Ok(a) <==> Describes(value, a, parse)
  {
    if Describes(value, a, parse) {
      KeyOfName(a);
      InputBoolKeywords(value[0]);
      InputFloatKeywords(value[0]);
      SingleFloatKeywords(value[0]);
      SingleBoolKeywords(value[0]);
      GroupsDisjoint(value[0]);
    }
  }

  /** Tokens past the ones a keyword's shape reads make no difference. */
  lemma ExtraTokensIgnored(value: seq<string>, extra: seq<string>, parse: string -> Option<F32>)
    requires TryFrom(value, parse).Ok?
    ensures TryFrom(value + extra, parse) == TryFrom(value, parse)
  {
    var a := TryFrom(value, parse).value;
    assert Describes(value + extra, a, parse) by {
      assert (value + extra)[..|value|] == value;
    }
    TryFromDescribes(value + extra, a, parse);
  }

  /** The text vMix sends for a variant, given how it prints a level. */
  function Tokens(a: ActivatorsData, format: F32 -> string): (ts: seq<string>)
    ensures |ts| == 1 + ArgCount(a) && ts[0] == Name(a)
  {
    var flag := (b: bool) => if b then "1" else "0";
    match a
    case InputBool(_, n, b) => [Name(a), FormatDecimal(n), flag(b)]
    case InputFloat(_, n, x) => [Name(a), FormatDecimal(n), format(x)]
    case SingleFloat(_, x) => [Name(a), format(x)]
    case SingleBool(_, b) => [Name(a), flag(b)]
  }

  /** Every variant survives printing and decoding, as long as the level
      printer and the float parser agree. */
  lemma TryFromTokens(a: ActivatorsData, format: F32 -> string, parse: string -> Option<F32>)
    requires forall x :: parse(format(x)) == Some(x)
    ensures TryFrom(Tokens(a, format), parse) == Ok(a)
  {
    var ts := Tokens(a, format);
    if a.InputBool? || a.InputFloat? {
      ParseFormatted(a.input, 0xFFFF);
    }
    TryFromDescribes(ts, a, parse);
  }

  /** The example of the protocol: `Input 3 1` is input 3 on program. */
  lemma InputExample(parse: string -> Option<F32>)
    ensures TryFrom(["Input", "3", "1"], parse) == Ok(InputBool(Input, 3, true))
  {
    var a := InputBool(Input, 3, true);
    assert ParseU16Or0("3") == 3 by {
      assert DigitsValue("3") == 3;
    }
    TryFromDescribes(["Input", "3", "1"], a, parse);
  }
}
