/** The TCP response decoder of src/commands.rs: one response line is split
    into words, the second word is classified as a status, and the first
    picks the command; `TALLY` turns its body into a map from input number
    to tally light, `ACTS` hands its words to the activator decoder, and
    `XML` reads a length-prefixed payload that follows the line.

    The socket is modelled as its two reads: the result of `read_line`
    (the text up to and including the first line feed, "" when no byte
    was read) and the bytes that follow the line. */
module Commands {
  import opened Common
  import opened RustText
  import Activators
  import TcpActs
  import LegacyActs

  // ---------------------------------------------------------------------
  // Status and tally light
  // ---------------------------------------------------------------------

  datatype Status = OK | ER | Length(len: u64) | Detail(text: string)

  /** `Status::from`: total; "OK" and "ER" are themselves, a `u64` is a
      length, and any other word is kept verbatim as a detail. */
  function StatusFrom(value: string): (st: Status)
    ensures st == OK <==> value == "OK"
    ensures st == ER <==> value == "ER"
    ensures st.Length? <==> ParseU64(value).Some?
    ensures st.Length? ==> st.len == ParseU64(value).value
    ensures st.Detail? ==> st.text == value
  {
    match value
    case "OK" => OK
    case "ER" => ER
    case _ =>
      match ParseU64(value)
      case Some(length) => Length(length)
      case None => Detail(value)
  }

  /** The word vMix sends for a status. */
  function StatusText(st: Status): string {
    match st
    case OK => "OK"
    case ER => "ER"
    case Length(n) => FormatDecimal(n)
    case Detail(t) => t
  }

  /** A status survives printing and classification, unless it is a detail
      whose text reads as another status. */
  lemma StatusRoundTrip(st: Status)
    requires st.Detail? ==> st.text != "OK" && st.text != "ER" && ParseU64(st.text).None?
    ensures StatusFrom(StatusText(st)) == st
  {
    if st.Length? {
      ParseFormatted(st.len, 0xFFFF_FFFF_FFFF_FFFF);
    }
  }

  datatype TallyData = OFF | PROGRAM | PREVIEW

  /** `TallyData::from(char)`: '1' is program, '2' preview, anything else
      (including '0') off. */
  function TallyFrom(c: char): (t: TallyData)
    ensures t == PROGRAM <==> c == '1'
    ensures t == PREVIEW <==> c == '2'
    ensures t == OFF <==> c != '1' && c != '2'
  {
    match c
    case '0' => OFF
    case '1' => PROGRAM
    case '2' => PREVIEW
    case _ => OFF
  }

  /** The digit vMix sends for a tally light. */
  function TallyChar(t: TallyData): char {
    match t
    case OFF => '0'
    case PROGRAM => '1'
    case PREVIEW => '2'
  }

  lemma TallyRoundTrip(t: TallyData)
    ensures TallyFrom(TallyChar(t)) == t
  {
  }

  // ---------------------------------------------------------------------
  // Commands
  // ---------------------------------------------------------------------

  /** `Command`, generic in the activator type so that the older copy in
      src/lib.rs, whose activators differ, shares it. */
  datatype Command<A> =
    | TALLY(status: Status, tally: map<InputNumber, TallyData>)
    | FUNCTION(status: Status, body: Option<string>)
    | ACTS(status: Status, activator: A)
    | XML(status: Status, doc: VmixState)
    | XMLTEXT(status: Status, body: Option<string>)
    | SUBSCRIBE(status: Status, body: Option<string>)
    | UNSUBSCRIBE(status: Status, body: Option<string>)
    | QUIT
    | VERSION(status: Status, version: Option<string>)

  function KeywordOf<A>(c: Command<A>): string {
    match c
    case TALLY(_, _) => "TALLY"
    case FUNCTION(_, _) => "FUNCTION"
    case ACTS(_, _) => "ACTS"
    case XML(_, _) => "XML"
    case XMLTEXT(_, _) => "XMLTEXT"
    case SUBSCRIBE(_, _) => "SUBSCRIBE"
    case UNSUBSCRIBE(_, _) => "UNSUBSCRIBE"
    case QUIT => "QUIT"
    case VERSION(_, _) => "VERSION"
  }

  /** The commands that carry the third word through unchanged. */
  predicate IsPassThrough(keyword: string) {
    keyword == "FUNCTION" || keyword == "XMLTEXT" || keyword == "SUBSCRIBE" ||
    keyword == "UNSUBSCRIBE" || keyword == "VERSION"
  }

  predicate IsCommandKeyword(keyword: string) {
    IsPassThrough(keyword) || keyword == "TALLY" || keyword == "ACTS" || keyword == "XML" || keyword == "QUIT"
  }

  function BodyOf<A>(c: Command<A>): Option<string>
    requires c.FUNCTION? || c.XMLTEXT? || c.SUBSCRIBE? || c.UNSUBSCRIBE? || c.VERSION?
  {
    if c.VERSION? then c.version else c.body
  }

  // ---------------------------------------------------------------------
  // The tally map
  // ---------------------------------------------------------------------

  /** The map the `for` loop over the body's characters builds: entry i+1
      is character i. Defined only below the width of `InputNumber`: at
      character 65535 the `+= 1` overflows. */
  function TallyMap(body: string): map<InputNumber, TallyData>
    requires |body| <= 0xFFFF
  {
    if |body| == 0 then map[]
    else TallyMap(body[..|body| - 1])[|body| := TallyFrom(body[|body| - 1])]
  }

  /** The tally map's keys are exactly 1..N, and key i+1 depends only on
      character i. */
  lemma {:induction false} TallyMapEntries(body: string)
    requires |body| <= 0xFFFF
    ensures forall n: InputNumber :: n in TallyMap(body) <==> 1 <= n <= |body|
    ensures forall i :: 0 <= i < |body| ==> TallyMap(body)[i + 1] == TallyFrom(body[i])
  {
    if |body| > 0 {
      var prefix := body[..|body| - 1];
      TallyMapEntries(prefix);
      assert forall i :: 0 <= i < |prefix| ==> prefix[i] == body[i];
    }
  }

  /** The example body "0121": input 1 off, 2 on program, 3 on preview,
      4 on program. */
  lemma TallyExample()
    ensures TallyMap("0121") == map[1 := OFF, 2 := PROGRAM, 3 := PREVIEW, 4 := PROGRAM]
  {
    var body := "0121";
    var m := TallyMap(body);
    var expected: map<InputNumber, TallyData> := map[1 := OFF, 2 := PROGRAM, 3 := PREVIEW, 4 := PROGRAM];
    TallyMapEntries(body);
    assert body[0] == '0' && body[1] == '1' && body[2] == '2' && body[3] == '1';
    assert m[1] == OFF && m[2] == PROGRAM && m[3] == PREVIEW && m[4] == PROGRAM;
    assert m.Keys == expected.Keys;
  }

  /** The `for (i, char) in chars.iter().enumerate()` loop: `i as u16`
      truncates, and the `+= 1` on it panics in a debug build once `i`
      reaches 65535. */
  method BuildTallyMap(body: string) returns (r: Outcome<map<InputNumber, TallyData>>)
    ensures |body| > 0xFFFF ==> r == Panic(AddOverflow)
    ensures |body| <= 0xFFFF ==> r == Ok(TallyMap(body))
  {
    var tallyMap: map<InputNumber, TallyData> := map[];
    var i := 0;
    while i < |body|
      invariant 0 <= i <= |body| && i <= 0xFFFF
      invariant tallyMap == TallyMap(body[..i])
    {
      var tally := TallyFrom(body[i]);
      var index: InputNumber := i % 0x1_0000;
      if index == 0xFFFF {
        return Panic(AddOverflow);
      }
      index := index + 1;
      assert body[..i + 1][..i] == body[..i];
      tallyMap := tallyMap[index := tally];
      i := i + 1;
    }
    assert body[..i] == body;
    return Ok(tallyMap);
  }

  // ---------------------------------------------------------------------
  // Decoding
  // ---------------------------------------------------------------------

  /** The result of `read_line`: an I/O error, or the text read. */
  datatype LineRead = ReadFailed(kind: IoErrorKind) | LineText(text: string)

  /** What follows the response line on the socket: the bytes that arrive
      before the stream ends, and how it ends, cleanly (`None`) or with an
      I/O error (a read timeout, a reset). */
  datatype Payload = Payload(bytes: seq<byte>, failure: Option<IoErrorKind>)

  /** The bytes `stream.take(n).read_to_end` collects: it stops after n
      bytes, and a stream that fails before delivering them fails the
      read with its I/O error. */
  function TakeBytes(payload: Payload, n: nat): (r: Outcome<seq<byte>>)
    ensures r.Err? <==> |payload.bytes| < n && payload.failure.Some?
    ensures r.Err? ==> r.error == Io(payload.failure.value)
    ensures r.Ok? ==> |r.value| == Min(n, |payload.bytes|) && r.value == payload.bytes[..|r.value|]
    ensures !r.Panic?
  {
    if |payload.bytes| < n && payload.failure.Some? then Err(Io(payload.failure.value))
    else Ok(payload.bytes[..Min(n, |payload.bytes|)])
  }

  /** The `XML` arm after a `Length(n)` status: at most n payload bytes are
      read as a string (an I/O error, or bytes that are not UTF-8, which
      `read_to_string` reports as `InvalidData`, return the error), line
      breaks are removed, and the document is parsed with `unwrap`. */
  function ReadXml<A>(status: Status, payload: Payload, f: Foreign): (r: Outcome<Command<A>>)
    requires status.Length?
    ensures var took := TakeBytes(payload, status.len);
            (took.Err? ==> r == Err(took.error)) &&
            (took.Ok? && f.utf8(took.value).None? ==> r == Err(Io(InvalidData))) &&
            (took.Ok? && f.utf8(took.value).Some? ==>
               var xml := JoinLines(f.utf8(took.value).value);
               (f.parseXml(xml).None? ==> r == Panic(UnwrapErr)) &&
               (f.parseXml(xml).Some? ==> r == Ok(XML(status, f.parseXml(xml).value))))
    ensures r.Ok? ==>
              r.value.XML? && r.value.status == status &&
              exists xml :: (forall k :: 0 <= k < |xml| ==> xml[k] != '\n') && f.parseXml(xml) == Some(r.value.doc)
  {
    match TakeBytes(payload, status.len)
    case Err(e) => Err(e)
    case Panic(p) => Panic(p)
    case Ok(took) =>
      match f.utf8(took)
      case None => Err(Io(InvalidData))
      case Some(text) =>
        var xml := JoinLines(text);
        match f.parseXml(xml)
        case None => Panic(UnwrapErr)
        case Some(vmix) => Ok(XML(status, vmix))
  }

  /** The `ACTS` arm: the activator decoder's error is `unwrap`ped. */
  function ActsResult<A>(status: Status, decoded: Outcome<A>): Outcome<Command<A>> {
    match decoded
    case Ok(a) => Ok(ACTS(status, a))
    case Err(_) => Panic(UnwrapErr)
    case Panic(p) => Panic(p)
  }

  /** Everything after the split: the keyword dispatch. The first two words
      are `unwrap`ped, the third is the optional body, and later words are
      dropped except by `ACTS`, which decodes words 2.. with `acts`. */
  function DecodeTokens<A>(tokens: seq<string>, payload: Payload, f: Foreign,
                           acts: seq<string> -> Outcome<A>): (r: Outcome<Command<A>>)
    ensures |tokens| < 2 ==> r == Panic(UnwrapNone)
    ensures |tokens| >= 2 && !IsCommandKeyword(tokens[0]) ==> r == Err(NoMatchingCommand)
    ensures r.Ok? ==> KeywordOf(r.value) == tokens[0]
    ensures r.Ok? && !r.value.QUIT? ==> r.value.status == StatusFrom(tokens[1])
    ensures |tokens| >= 2 && IsPassThrough(tokens[0]) ==>
              r.Ok? && BodyOf(r.value) == (if |tokens| > 2 then Some(tokens[2]) else None)
    ensures |tokens| >= 2 && tokens[0] == "QUIT" ==> r == Ok(QUIT)
    ensures |tokens| >= 2 && tokens[0] == "TALLY" ==>
              (r.Ok? <==> |tokens| > 2 && |tokens[2]| <= 0xFFFF) &&
              (|tokens| > 2 && |tokens[2]| > 0xFFFF ==> r == Panic(AddOverflow))
    ensures r.Ok? && r.value.TALLY? ==>
              (forall n: InputNumber :: n in r.value.tally <==> 1 <= n <= |tokens[2]|) &&
              forall i :: 0 <= i < |tokens[2]| ==> r.value.tally[i + 1] == TallyFrom(tokens[2][i])
    ensures |tokens| == 2 && tokens[0] == "TALLY" ==> r == Panic(UnwrapNone)
    ensures |tokens| >= 2 && tokens[0] == "ACTS" ==>
              (r.Ok? <==> acts(tokens[2..]).Ok?) &&
              (r.Ok? ==> r.value.activator == acts(tokens[2..]).value)
    ensures |tokens| >= 2 && tokens[0] == "ACTS" && acts(tokens[2..]).Err? ==> r == Panic(UnwrapErr)
    ensures |tokens| >= 2 && tokens[0] == "ACTS" && acts(tokens[2..]).Panic? ==> r == Panic(acts(tokens[2..]).site)
    ensures |tokens| >= 2 && tokens[0] == "XML" && !StatusFrom(tokens[1]).Length? ==> r == Err(FailedToReadXml)
    ensures |tokens| >= 2 && tokens[0] == "XML" && StatusFrom(tokens[1]).Length? ==>
              r == ReadXml(StatusFrom(tokens[1]), payload, f)
  {
    if |tokens| < 2 then Panic(UnwrapNone)
    else
      var command := tokens[0];
      var status := StatusFrom(tokens[1]);
      var body := if |tokens| > 2 then Some(tokens[2]) else None;
      match command
      case "TALLY" =>
        if body.None? then Panic(UnwrapNone)
        else if |body.value| > 0xFFFF then Panic(AddOverflow)
        else
          TallyMapEntries(body.value);
          Ok(TALLY(status, TallyMap(body.value)))
      case "FUNCTION" => Ok(FUNCTION(status, body))
      case "ACTS" => ActsResult(status, acts(tokens[2..]))
      case "XML" => if status.Length? then ReadXml(status, payload, f) else Err(FailedToReadXml)
      case "XMLTEXT" => Ok(XMLTEXT(status, body))
      case "SUBSCRIBE" => Ok(SUBSCRIBE(status, body))
      case "UNSUBSCRIBE" => Ok(UNSUBSCRIBE(status, body))
      case "QUIT" => Ok(QUIT)
      case "VERSION" => Ok(VERSION(status, body))
      case _ => Err(NoMatchingCommand)
  }

  /** The activator decoder src/commands.rs uses: `crate::acts`, the
      unwrap-based one. */
  function ActsDecoder(f: Foreign): seq<string> -> Outcome<Activators.ActivatorsData> {
    (v: seq<string>) => LegacyActs.TryFrom(v, f.parseF32)
  }

  /** `Command::try_from(&TcpStream)`: a failed read is its I/O error, an
      empty read is `ConnectionAborted` before any parsing, and otherwise
      the line, with its line breaks removed, is split on whitespace. */
  function Decode(read: LineRead, payload: Payload, f: Foreign): (r: Outcome<Command<Activators.ActivatorsData>>)
    ensures read.ReadFailed? ==> r == Err(Io(read.kind))
    ensures read == LineText("") ==> r == Err(Aborted)
    ensures read.LineText? && read.text != "" ==> r == DecodeTokens(Words(JoinLines(read.text)), payload, f, ActsDecoder(f))
  {
    match read
    case ReadFailed(kind) => Err(Io(kind))
    case LineText(text) =>
      if text == "" then Err(Aborted)
      else DecodeTokens(Words(JoinLines(text)), payload, f, ActsDecoder(f))
  }

  /** The keyword dispatch, as the method that runs it. */
  method Dispatch<A>(tokens: seq<string>, payload: Payload, f: Foreign,
                     acts: seq<string> -> Outcome<A>) returns (r: Outcome<Command<A>>)
    ensures r == DecodeTokens(tokens, payload, f, acts)
  {
    if |tokens| < 2 {
      return Panic(UnwrapNone);
    }
    var command := tokens[0];
    var status := StatusFrom(tokens[1]);
    var body := if |tokens| > 2 then Some(tokens[2]) else None;
    match command
    case "TALLY" =>
      if body.None? {
        return Panic(UnwrapNone);
      }
      var tallyMap := BuildTallyMap(body.value);
      match tallyMap {
        case Ok(m) => r := Ok(TALLY(status, m));
        case Err(e) => r := Err(e);
        case Panic(p) => r := Panic(p);
      }
    case "FUNCTION" => r := Ok(FUNCTION(status, body));
    case "ACTS" => r := ActsResult(status, acts(tokens[2..]));
    case "XML" =>
      if status.Length? {
        r := ReadXml(status, payload, f);
      } else {
        r := Err(FailedToReadXml);
      }
    case "XMLTEXT" => r := Ok(XMLTEXT(status, body));
    case "SUBSCRIBE" => r := Ok(SUBSCRIBE(status, body));
    case "UNSUBSCRIBE" => r := Ok(UNSUBSCRIBE(status, body));
    case "QUIT" => r := Ok(QUIT);
    case "VERSION" => r := Ok(VERSION(status, body));
    case _ => r := Err(NoMatchingCommand);
  }

  /** `Command::try_from(&TcpStream)`, step by step: the zero-byte check,
      the line-break removal, the word-pushing loop and the dispatch. */
  method TryFrom(read: LineRead, payload: Payload, f: Foreign) returns (r: Outcome<Command<Activators.ActivatorsData>>)
    ensures r == Decode(read, payload, f)
  {
    if read.ReadFailed? {
      return Err(Io(read.kind));
    }
    if read.text == "" {
      return Err(Aborted);
    }
    var value := JoinLines(read.text);
    var commands := SplitWhitespace(value);
    r := Dispatch(commands, payload, f, ActsDecoder(f));
  }

  // ---------------------------------------------------------------------
  // Properties of whole response lines
  // ---------------------------------------------------------------------

  /** The words of a response line as vMix writes it: keyword, status,
      then the body words, separated by spaces and ended by "\r\n". */
  function ResponseLine(keyword: string, status: Status, words: seq<string>): string {
    JoinSpaces([keyword, StatusText(status)] + words) + "\r\n"
  }

  lemma {:induction false} ResponseLineWords(keyword: string, status: Status, words: seq<string>)
    requires IsToken(keyword) && IsToken(StatusText(status))
    requires forall i :: 0 <= i < |words| ==> IsToken(words[i])
    ensures ResponseLine(keyword, status, words) != ""
    ensures Words(JoinLines(ResponseLine(keyword, status, words))) == [keyword, StatusText(status)] + words
  {
    var ws := [keyword, StatusText(status)] + words;
    var line := JoinSpaces(ws);
    assert line == keyword + " " + JoinSpaces(ws[1..]);
    assert forall k :: 0 <= k < |line| ==> line[k] != '\n' by {
      WordsNoLineFeed(ws);
    }
    JoinLinesStripsTerminator(line, "\r\n");
    WordsOfJoinSpaces(ws);
  }

  lemma {:induction false} WordsNoLineFeed(ws: seq<string>)
    requires forall i :: 0 <= i < |ws| ==> IsToken(ws[i])
    ensures forall k :: 0 <= k < |JoinSpaces(ws)| ==> JoinSpaces(ws)[k] != '\n'
  {
    if |ws| > 1 {
      WordsNoLineFeed(ws[1..]);
      var s := JoinSpaces(ws);
      assert s == ws[0] + " " + JoinSpaces(ws[1..]);
      forall k | 0 <= k < |s|
        ensures s[k] != '\n'
      {
        if k < |ws[0]| {
          assert !IsWhitespace(ws[0][k]);
        } else if k > |ws[0]| {
          assert s[k] == JoinSpaces(ws[1..])[k - |ws[0]| - 1];
        }
      }
    } else if |ws| == 1 {
      assert forall k :: 0 <= k < |ws[0]| ==> !IsWhitespace(ws[0][k]);
    }
  }

  /** A `FUNCTION` response as vMix writes it decodes to its status and the
      first word of its message; the rest of the message is lost, so
      "FUNCTION ER Error message" keeps only "Error". */
  lemma FunctionResponse(status: Status, words: seq<string>, payload: Payload, f: Foreign)
    requires IsToken(StatusText(status))
    requires status.Detail? ==> status.text != "OK" && status.text != "ER" && ParseU64(status.text).None?
    requires forall i :: 0 <= i < |words| ==> IsToken(words[i])
    ensures Decode(LineText(ResponseLine("FUNCTION", status, words)), payload, f) ==
              Ok(FUNCTION(status, if |words| > 0 then Some(words[0]) else None))
  {
    assert IsToken("FUNCTION");
    ResponseLineWords("FUNCTION", status, words);
    StatusRoundTrip(status);
  }

  /** A `TALLY` response decodes to one entry per digit, numbered from 1. */
  lemma TallyResponse(status: Status, lights: seq<TallyData>, payload: Payload, f: Foreign)
    requires IsToken(StatusText(status))
    requires status.Detail? ==> status.text != "OK" && status.text != "ER" && ParseU64(status.text).None?
    requires 0 < |lights| <= 0xFFFF
    ensures var body := seq(|lights|, i requires 0 <= i < |lights| => TallyChar(lights[i]));
            var r := Decode(LineText(ResponseLine("TALLY", status, [body])), payload, f);
            r.Ok? && r.value.TALLY? && r.value.status == status &&
            (forall n: InputNumber :: n in r.value.tally <==> 1 <= n <= |lights|) &&
            forall i :: 0 <= i < |lights| ==> r.value.tally[i + 1] == lights[i]
  {
    var body := seq(|lights|, i requires 0 <= i < |lights| => TallyChar(lights[i]));
    assert IsToken("TALLY");
    assert IsToken(body) by {
      assert forall k :: 0 <= k < |body| ==> body[k] == TallyChar(lights[k]);
    }
    ResponseLineWords("TALLY", status, [body]);
    StatusRoundTrip(status);
    forall i | 0 <= i < |lights|
      ensures TallyFrom(body[i]) == lights[i]
    {
      TallyRoundTrip(lights[i]);
    }
  }

  /** An `ACTS` response succeeds exactly when the unwrap-based decoder
      neither panics nor refuses the keyword, and then carries the variant
      the words describe. */
  lemma ActsResponse(tokens: seq<string>, payload: Payload, f: Foreign, a: Activators.ActivatorsData)
    requires |tokens| >= 2 && tokens[0] == "ACTS"
    ensures DecodeTokens(tokens, payload, f, ActsDecoder(f)) == Ok(ACTS(StatusFrom(tokens[1]), a)) <==>
              LegacyActs.Defined(tokens[2..], f.parseF32) && TcpActs.Describes(tokens[2..], a, f.parseF32)
  {
    TcpActs.TryFromDescribes(tokens[2..], a, f.parseF32);
  }

  /** An `XML` response reads at most its announced length: neither the
      bytes past it nor how the stream ends afterwards make a difference. */
  lemma XmlReadsAtMostLength(tokens: seq<string>, p: Payload, q: Payload, f: Foreign,
                             acts: seq<string> -> Outcome<Activators.ActivatorsData>)
    requires |tokens| >= 2 && tokens[0] == "XML" && StatusFrom(tokens[1]).Length?
    requires var n := StatusFrom(tokens[1]).len;
             |p.bytes| >= n && |q.bytes| >= n && p.bytes[..n] == q.bytes[..n]
    ensures DecodeTokens(tokens, p, f, acts) == DecodeTokens(tokens, q, f, acts)
  {
    var status := StatusFrom(tokens[1]);
    assert TakeBytes(p, status.len) == TakeBytes(q, status.len);
    assert ReadXml<Activators.ActivatorsData>(status, p, f) == ReadXml(status, q, f);
  }
}
