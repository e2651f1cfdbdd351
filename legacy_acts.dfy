/** The earlier activator decoder of src/acts.rs: the same 79 variants, but
    every token is indexed and every number `unwrap`ped without a guard, so
    a short or malformed notification panics instead of returning an error. */
module LegacyActs {
  import opened Common
  import opened RustText
  import opened Activators
  import TcpActs

  /** The arms for `(InputNumber, bool)` keywords: token 1 must be a u16,
      token 2 is the flag. */
  function InputBoolArm(k: InputBoolKey, value: seq<string>): Outcome<ActivatorsData> {
    if |value| < 2 then Panic(IndexOutOfBounds(1))
    else match ParseU16(value[1])
      case None => Panic(UnwrapErr)
      case Some(n) =>
        if |value| < 3 then Panic(IndexOutOfBounds(2))
        else Ok(InputBool(k, n, value[2] == "1"))
  }

  /** The arms for `(InputNumber, f32)` keywords. */
  function InputFloatArm(k: InputFloatKey, value: seq<string>, parse: string -> Option<F32>): Outcome<ActivatorsData> {
    if |value| < 2 then Panic(IndexOutOfBounds(1))
    else match ParseU16(value[1])
      case None => Panic(UnwrapErr)
      case Some(n) =>
        if |value| < 3 then Panic(IndexOutOfBounds(2))
        else match parse(value[2])
          case None => Panic(UnwrapErr)
          case Some(x) => Ok(InputFloat(k, n, x))
  }

  /** The arms for single-`f32` keywords. */
  function SingleFloatArm(k: SingleFloatKey, value: seq<string>, parse: string -> Option<F32>): Outcome<ActivatorsData> {
    if |value| < 2 then Panic(IndexOutOfBounds(1))
    else match parse(value[1])
      case None => Panic(UnwrapErr)
      case Some(x) => Ok(SingleFloat(k, x))
  }

  /** The arms for single-`bool` keywords: they only index token 1. */
  function SingleBoolArm(k: SingleBoolKey, value: seq<string>): Outcome<ActivatorsData> {
    if |value| < 2 then Panic(IndexOutOfBounds(1))
    else Ok(SingleBool(k, value[1] == "1"))
  }

  /** The inputs on which the decoder returns rather than panics: a
      keyword token exists and, for a known keyword, the tokens its arm
      reads exist and parse. */
  predicate Defined(value: seq<string>, parse: string -> Option<F32>) {
    |value| > 0 &&
    var kw := value[0];
    (InInputBoolGroup(kw) ==> |value| >= 3 && ParseU16(value[1]).Some?) &&
    (InInputFloatGroup(kw) ==> |value| >= 3 && ParseU16(value[1]).Some? && parse(value[2]).Some?) &&
    (InSingleFloatGroup(kw) ==> |value| >= 2 && parse(value[1]).Some?) &&
    (InSingleBoolGroup(kw) ==> |value| >= 2)
  }

  /** `TryFrom<&[String]> for ActivatorsData` (src/acts.rs). It panics
      exactly off `Defined`; wherever it returns, it returns what the
      guarded decoder of vmix-tcp returns, so it builds the variant named by
      the keyword and refuses an unknown keyword with the same error. */
  function TryFrom(value: seq<string>, parse: string -> Option<F32>): (r: Outcome<ActivatorsData>)
    ensures |value| == 0 ==> r == Panic(IndexOutOfBounds(0))
    ensures r.Panic? <==> !Defined(value, parse)
    ensures !r.Panic? ==> r == TcpActs.TryFrom(value, parse)
  {
    if |value| == 0 then Panic(IndexOutOfBounds(0))
    else
      var kw := value[0];
      InputBoolKeywords(kw);
      InputFloatKeywords(kw);
      SingleFloatKeywords(kw);
      SingleBoolKeywords(kw);
      GroupsDisjoint(kw);
      match InputBoolKeyOf(kw)
      case Some(k) => InputBoolArm(k, value)
      case None =>
        match InputFloatKeyOf(kw)
        case Some(k) => InputFloatArm(k, value, parse)
        case None =>
          match SingleFloatKeyOf(kw)
          case Some(k) => SingleFloatArm(k, value, parse)
          case None =>
            match SingleBoolKeyOf(kw)
            case Some(k) => SingleBoolArm(k, value)
            case None => Err(UnknownActivator)
  }

  /** A single-bool keyword with its token never panics, whatever the
      token says; an input-shaped keyword with a non-number panics. */
  lemma SingleBoolNeverPanics(k: SingleBoolKey, rest: seq<string>, parse: string -> Option<F32>)
    requires |rest| >= 1
    ensures TryFrom([SingleBoolName(k)] + rest, parse) == Ok(SingleBool(k, rest[0] == "1"))
  {
    var value := [SingleBoolName(k)] + rest;
    var a := SingleBool(k, rest[0] == "1");
    KeyOfName(a);
    SingleBoolKeywords(value[0]);
    GroupsDisjoint(value[0]);
    assert value[1] == rest[0];
    assert TcpActs.Describes(value, a, parse);
    TcpActs.TryFromDescribes(value, a, parse);
  }

  lemma InputWithoutNumberPanics(k: InputBoolKey, rest: seq<string>, parse: string -> Option<F32>)
    requires |rest| >= 1 && ParseU16(rest[0]).None?
    ensures TryFrom([InputBoolName(k)] + rest, parse) == Panic(UnwrapErr)
  {
    var value := [InputBoolName(k)] + rest;
    KeyOfName(InputBool(k, 0, false));
    assert value[1] == rest[0];
  }
}
