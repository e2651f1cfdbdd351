/** The older TCP client in src/lib.rs (lines 377-699): its own copies of
    `Status`, `TallyData` and `Command::try_from`, and a 22-variant
    `ActivatorsData` whose `Input` carries only an input number and whose
    levels are `f64`. Every token is indexed and every number `unwrap`ped. */
module LibTcp {
  import opened Common
  import opened RustText
  import C = Commands

  // `Status::from` and `TallyData::from` in src/lib.rs:391-427 are the same
  // code as in src/commands.rs and are modelled once, as
  // `Commands.StatusFrom` and `Commands.TallyFrom`.

  /** Variants carrying `(InputNumber, bool)`. */
  datatype InputBoolKey =
    | InputPreview
    | InputPlaying
    | InputAudio
    | InputSolo
    | InputBusAAudio
    | InputBusBAudio
    | InputMasterAudio

  /** Variants carrying `(InputNumber, f64)`. */
  datatype InputFloatKey =
    | InputVolume
    | InputHeadphones

  /** Variants carrying a single `f64`. */
  datatype SingleFloatKey =
    | MasterVolume
    | MasterHeadphones
    | BusAVolume
    | BusBVolume

  /** Variants carrying a single `bool`. */
  datatype SingleBoolKey =
    | MasterAudio
    | BusAAudio
    | BusBAudio
    | FadeToBlack
    | Recording
    | Streaming
    | External
    | Fullscreen

  datatype ActivatorsData =
    | Input(input: InputNumber)
    | InputBool(ibKey: InputBoolKey, input: InputNumber, active: bool)
    | InputFloat(ifKey: InputFloatKey, input: InputNumber, level: F64)
    | SingleFloat(sfKey: SingleFloatKey, level: F64)
    | SingleBool(sbKey: SingleBoolKey, active: bool)

  function InputBoolName(k: InputBoolKey): string {
    match k
    case InputPreview => "InputPreview"
    case InputPlaying => "InputPlaying"
    case InputAudio => "InputAudio"
    case InputSolo => "InputSolo"
    case InputBusAAudio => "InputBusAAudio"
    case InputBusBAudio => "InputBusBAudio"
    case InputMasterAudio => "InputMasterAudio"
  }

  function InputFloatName(k: InputFloatKey): string {
    match k
    case InputVolume => "InputVolume"
    case InputHeadphones => "InputHeadphones"
  }

  function SingleFloatName(k: SingleFloatKey): string {
    match k
    case MasterVolume => "MasterVolume"
    case MasterHeadphones => "MasterHeadphones"
    case BusAVolume => "BusAVolume"
    case BusBVolume => "BusBVolume"
  }

  function SingleBoolName(k: SingleBoolKey): string {
    match k
    case MasterAudio => "MasterAudio"
    case BusAAudio => "BusAAudio"
    case BusBAudio => "BusBAudio"
    case FadeToBlack => "FadeToBlack"
    case Recording => "Recording"
    case Streaming => "Streaming"
    case External => "External"
    case Fullscreen => "Fullscreen"
  }

  function Name(a: ActivatorsData): string {
    match a
    case Input(_) => "Input"
    case InputBool(k, _, _) => InputBoolName(k)
    case InputFloat(k, _, _) => InputFloatName(k)
    case SingleFloat(k, _) => SingleFloatName(k)
    case SingleBool(k, _) => SingleBoolName(k)
  }

  /** The `Input` arm: only token 1 is read. */
  function InputArm(value: seq<string>): Outcome<ActivatorsData> {
    if |value| < 2 then Panic(IndexOutOfBounds(1))
    else match ParseU16(value[1])
      case None => Panic(UnwrapErr)
      case Some(n) => Ok(Input(n))
  }

  function InputBoolArm(k: InputBoolKey, value: seq<string>): Outcome<ActivatorsData> {
    if |value| < 2 then Panic(IndexOutOfBounds(1))
    else match ParseU16(value[1])
      case None => Panic(UnwrapErr)
      case Some(n) =>
        if |value| < 3 then Panic(IndexOutOfBounds(2))
        else Ok(InputBool(k, n, value[2] == "1"))
  }

  function InputFloatArm(k: InputFloatKey, value: seq<string>, parse: string -> Option<F64>): Outcome<ActivatorsData> {
    if |value| < 2 then Panic(IndexOutOfBounds(1))
    else match ParseU16(value[1])
      case None => Panic(UnwrapErr)
      case Some(n) =>
        if |value| < 3 then Panic(IndexOutOfBounds(2))
        else match parse(value[2])
          case None => Panic(UnwrapErr)
          case Some(x) => Ok(InputFloat(k, n, x))
  }

  function SingleFloatArm(k: SingleFloatKey, value: seq<string>, parse: string -> Option<F64>): Outcome<ActivatorsData> {
    if |value| < 2 then Panic(IndexOutOfBounds(1))
    else match parse(value[1])
      case None => Panic(UnwrapErr)
      case Some(x) => Ok(SingleFloat(k, x))
  }

  function SingleBoolArm(k: SingleBoolKey, value: seq<string>): Outcome<ActivatorsData> {
    if |value| < 2 then Panic(IndexOutOfBounds(1))
    else Ok(SingleBool(k, value[1] == "1"))
  }

  function ArgCount(a: ActivatorsData): nat {
    if a.InputBool? || a.InputFloat? then 2 else 1
  }

  /** Reference meaning of a token list: the keyword is `a`'s name, the
      tokens its arm reads exist, and every number among them parses to
      the value `a` carries. */
  predicate Describes(value: seq<string>, a: ActivatorsData, parse: string -> Option<F64>) {
    |value| > ArgCount(a) && value[0] == Name(a) &&
    match a
    case Input(n) => ParseU16(value[1]) == Some(n)
    case InputBool(_, n, b) => ParseU16(value[1]) == Some(n) && b == (value[2] == "1")
    case InputFloat(_, n, x) => ParseU16(value[1]) == Some(n) && parse(value[2]) == Some(x)
    case SingleFloat(_, x) => parse(value[1]) == Some(x)
    case SingleBool(_, b) => b == (value[1] == "1")
  }

  /** Which arm of the 22-arm `match` a keyword selects. */
  datatype Keyword =
    | InputKeyword
    | InputBoolKeyword(ibKey: InputBoolKey)
    | InputFloatKeyword(ifKey: InputFloatKey)
    | SingleFloatKeyword(sfKey: SingleFloatKey)
    | SingleBoolKeyword(sbKey: SingleBoolKey)

  function KeywordName(kw: Keyword): string {
    match kw
    case InputKeyword => "Input"
    case InputBoolKeyword(k) => InputBoolName(k)
    case InputFloatKeyword(k) => InputFloatName(k)
    case SingleFloatKeyword(k) => SingleFloatName(k)
    case SingleBoolKeyword(k) => SingleBoolName(k)
  }

  /** The keyword's arm, in the order of the source's `match`; `None` for
      the catch-all arm. */
  function KeywordOf(s: string): Option<Keyword> {
    match s
    case "Input" => Some(InputKeyword)
    case "InputPreview" => Some(InputBoolKeyword(InputPreview))
    case "InputPlaying" => Some(InputBoolKeyword(InputPlaying))
    case "InputVolume" => Some(InputFloatKeyword(InputVolume))
    case "InputHeadphones" => Some(InputFloatKeyword(InputHeadphones))
    case "MasterVolume" => Some(SingleFloatKeyword(MasterVolume))
    case "MasterHeadphones" => Some(SingleFloatKeyword(MasterHeadphones))
    case "BusAVolume" => Some(SingleFloatKeyword(BusAVolume))
    case "BusBVolume" => Some(SingleFloatKeyword(BusBVolume))
    case "InputAudio" => Some(InputBoolKeyword(InputAudio))
    case "InputSolo" => Some(InputBoolKeyword(InputSolo))
    case "InputBusAAudio" => Some(InputBoolKeyword(InputBusAAudio))
    case "InputBusBAudio" => Some(InputBoolKeyword(InputBusBAudio))
    case "InputMasterAudio" => Some(InputBoolKeyword(InputMasterAudio))
    case "MasterAudio" => Some(SingleBoolKeyword(MasterAudio))
    case "BusAAudio" => Some(SingleBoolKeyword(BusAAudio))
    case "BusBAudio" => Some(SingleBoolKeyword(BusBAudio))
    case "FadeToBlack" => Some(SingleBoolKeyword(FadeToBlack))
    case "Recording" => Some(SingleBoolKeyword(Recording))
    case "Streaming" => Some(SingleBoolKeyword(Streaming))
    case "External" => Some(SingleBoolKeyword(External))
    case "Fullscreen" => Some(SingleBoolKeyword(Fullscreen))
    case _ => None
  }

  /** Each arm is selected by exactly its own name. */
  lemma KeywordOfName(kw: Keyword)
    ensures KeywordOf(KeywordName(kw)) == Some(kw)
  {
  }

  lemma NameOfKeyword(s: string)
    ensures KeywordOf(s).Some? ==> KeywordName(KeywordOf(s).value) == s
  {
  }

  /** The keyword a variant's name selects. */
  function KeywordOfData(a: ActivatorsData): (kw: Keyword)
    ensures KeywordName(kw) == Name(a)
  {
    match a
    case Input(_) => InputKeyword
    case InputBool(k, _, _) => InputBoolKeyword(k)
    case InputFloat(k, _, _) => InputFloatKeyword(k)
    case SingleFloat(k, _) => SingleFloatKeyword(k)
    case SingleBool(k, _) => SingleBoolKeyword(k)
  }

  /** The inputs on which the decoder returns rather than panics: a keyword
      token exists and, for a known keyword, the tokens its arm reads exist
      and parse. */
  predicate Defined(value: seq<string>, parse: string -> Option<F64>) {
    |value| > 0 &&
    match KeywordOf(value[0])
    case None => true
    case Some(InputKeyword) => |value| >= 2 && ParseU16(value[1]).Some?
    case Some(InputBoolKeyword(_)) => |value| >= 3 && ParseU16(value[1]).Some?
    case Some(InputFloatKeyword(_)) => |value| >= 3 && ParseU16(value[1]).Some? && parse(value[2]).Some?
    case Some(SingleFloatKeyword(_)) => |value| >= 2 && parse(value[1]).Some?
    case Some(SingleBoolKeyword(_)) => |value| >= 2
  }

  /** `TryFrom<&[String]> for ActivatorsData` (src/lib.rs): the keyword
      picks one of the 22 arms, and the arm indexes and `unwrap`s its
      tokens. It never returns an error other than for an unknown keyword,
      it panics exactly off `Defined`, and a success is the variant the
      tokens describe. */
  function TryFrom(value: seq<string>, parse: string -> Option<F64>): (r: Outcome<ActivatorsData>)
    ensures |value| == 0 ==> r == Panic(IndexOutOfBounds(0))
    ensures r.Panic? <==> !Defined(value, parse)
    ensures r.Err? ==> r.error == UnknownActivator
    ensures r.Ok? ==> Describes(value, r.value, parse)
  {
    if |value| == 0 then Panic(IndexOutOfBounds(0))
    else
      NameOfKeyword(value[0]);
      match KeywordOf(value[0])
      case None => Err(UnknownActivator)
      case Some(InputKeyword) => InputArm(value)
      case Some(InputBoolKeyword(k)) => InputBoolArm(k, value)
      case Some(InputFloatKeyword(k)) => InputFloatArm(k, value, parse)
      case Some(SingleFloatKeyword(k)) => SingleFloatArm(k, value, parse)
      case Some(SingleBoolKeyword(k)) => SingleBoolArm(k, value)
  }

  /** Decoding agrees with the reference meaning in both directions. */
  lemma TryFromDescribes(value: seq<string>, a: ActivatorsData, parse: string -> Option<F64>)
    ensures TryFrom(value, parse) == Ok(a) <==> Describes(value, a, parse)
  {
    if Describes(value, a, parse) {
      KeywordOfName(KeywordOfData(a));
    }
  }

  /** `Input` reads only its number: whatever follows is ignored. */
  lemma InputReadsOnlyNumber(x: string, rest: seq<string>, parse: string -> Option<F64>)
    ensures TryFrom(["Input", x] + rest, parse) ==
              if ParseU16(x).Some? then Ok(Input(ParseU16(x).value)) else Panic(UnwrapErr)
  {
    var value := ["Input", x] + rest;
    assert value[0] == "Input" && value[1] == x;
    KeywordOfName(InputKeyword);
  }

  /** The activator decoder src/lib.rs's `Command::try_from` uses. */
  function ActsDecoder(f: Foreign): seq<string> -> Outcome<ActivatorsData> {
    (v: seq<string>) => TryFrom(v, f.parseF64)
  }

  /** `Command::try_from(&TcpStream)` in src/lib.rs: the byte count of
      `read_line` is ignored, so an empty read (like a blank line) reaches
      the `unwrap` of the first word and panics. */
  function Decode(read: C.LineRead, payload: C.Payload, f: Foreign): (r: Outcome<C.Command<ActivatorsData>>)
    ensures read.ReadFailed? ==> r == Err(Io(read.kind))
    ensures read == C.LineText("") ==> r == Panic(UnwrapNone)
    ensures read.LineText? ==> r == C.DecodeTokens(Words(JoinLines(read.text)), payload, f, ActsDecoder(f))
  {
    match read
    case ReadFailed(kind) => Err(Io(kind))
    case LineText(text) => C.DecodeTokens(Words(JoinLines(text)), payload, f, ActsDecoder(f))
  }

  /** The same, step by step. */
  method TryFromStream(read: C.LineRead, payload: C.Payload, f: Foreign) returns (r: Outcome<C.Command<ActivatorsData>>)
    ensures r == Decode(read, payload, f)
  {
    if read.ReadFailed? {
      return Err(Io(read.kind));
    }
    var value := JoinLines(read.text);
    var commands := SplitWhitespace(value);
    r := C.Dispatch(commands, payload, f, ActsDecoder(f));
  }
}
