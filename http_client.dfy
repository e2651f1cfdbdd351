/** The HTTP client of vmix-http/src/client.rs: a host and a port, from
    which it builds the base URL and, for each request, a query string;
    the response head comes from an HTTP/1.1 decoder that is not part of
    this model, and the body is read either to a `Content-Length` or to
    the end of the stream. */
module HttpClient {
  import opened Common
  import opened RustText
  import opened Net

  /** `HttpVmixClient`; the request timeout only bounds waiting, which is
      not modelled. */
  datatype Client = Client(host: string, port: u16)

  // ---------------------------------------------------------------------
  // Construction and the base URL
  // ---------------------------------------------------------------------

  /** A URL host (section 3.2.2 of RFC 3986) may hold a ':' only inside
      the brackets of an IP literal. */
  predicate ValidUrlHost(host: string) {
    ':' in host ==> |host| >= 2 && host[0] == '[' && host[|host| - 1] == ']'
  }

  /** `new` as written: the host is `addr.ip().to_string()`, which leaves
      an IPv6 address unbracketed. */
  function NewAsWritten(addr: SocketAddr): (c: Client)
    ensures c.port == addr.port
    ensures addr.ip.V4? ==> ValidUrlHost(c.host)
  {
    Client(IpText(addr.ip), addr.port)
  }

  /** `new` with an IPv6 host written in brackets, the form a URL and a
      `Host` header need; IPv4 hosts are as before. */
  function New(addr: SocketAddr): (c: Client)
    ensures c.port == addr.port
    ensures WellFormed(addr.ip) ==> ValidUrlHost(c.host)
    ensures addr.ip.V4? ==> c == NewAsWritten(addr)
  {
    match addr.ip
    case V4(_, _, _, _) => Client(IpText(addr.ip), addr.port)
    case V6(text) => Client("[" + text + "]", addr.port)
  }

  /** `new_with_host_port`: the host text is kept as given. */
  function NewWithHostPort(host: string, port: u16): (c: Client)
    ensures GetBaseUrl(c) == "http://" + host + ":" + FormatDecimal(port) + "/api"
  {
    Client(host, port)
  }

  /** `get_base_url`: "http://", the host, ':', the port in decimal, and
      "/api". */
  function GetBaseUrl(c: Client): (u: string)
    ensures |u| == 12 + |c.host| + |FormatDecimal(c.port)|
    ensures u[..7] == "http://" && u[7..7 + |c.host|] == c.host && u[|u| - 4..] == "/api"
  {
    "http://" + c.host + ":" + FormatDecimal(c.port) + "/api"
  }

  /** The base URL can be taken apart again: between "http://" and "/api"
      the host comes first, and the text after the last ':' is the port,
      which parses back to the client's port. */
  lemma BaseUrlParses(c: Client)
    ensures var u := GetBaseUrl(c);
            |u| >= 11 + |c.host| && u[..7] == "http://" && u[|u| - 4..] == "/api" &&
            var authority := u[7..|u| - 4];
            var portText := authority[|c.host| + 1..];
            authority[..|c.host|] == c.host && authority[|c.host|] == ':' &&
            ':' !in portText && ParseU16(portText) == Some(c.port)
  {
    var u := GetBaseUrl(c);
    var p := FormatDecimal(c.port);
    assert u == "http://" + (c.host + ":" + p) + "/api";
    assert u[..7] == "http://" && u[|u| - 4..] == "/api";
    var authority := u[7..|u| - 4];
    assert authority == c.host + ":" + p;
    assert authority[..|c.host|] == c.host && authority[|c.host|] == ':';
    assert authority[|c.host| + 1..] == p;
    assert forall i :: 0 <= i < |p| ==> IsDigit(p[i]);
    ParseFormatted(c.port, 0xFFFF);
  }

  // ---------------------------------------------------------------------
  // The query string of `send_request` (vmix-http/src/client.rs:38-49)
  // ---------------------------------------------------------------------

  /** `format!("{}={}", encode(key), encode(value))`. */
  function EncodedPair(kv: (string, string), encode: string -> string): string {
    encode(kv.0) + "=" + encode(kv.1)
  }

  function EncodedPairs(params: seq<(string, string)>, encode: string -> string): (ps: seq<string>)
    ensures |ps| == |params|
    ensures forall i :: 0 <= i < |params| ==> ps[i] == EncodedPair(params[i], encode)
  {
    if |params| == 0 then [] else [EncodedPair(params[0], encode)] + EncodedPairs(params[1..], encode)
  }

  /** The query string: empty without parameters, otherwise "?" and the
      encoded pairs joined by "&". The map's iteration order is the order
      of `params`. */
  function QueryString(params: seq<(string, string)>, encode: string -> string): (q: string)
    ensures q == "" <==> |params| == 0
    ensures |params| > 0 ==> q[0] == '?'
  {
    if |params| == 0 then "" else "?" + Join(EncodedPairs(params, encode), '&')
  }

  /** Reading a query string back: with an encoder that never produces
      '&' or '=' (percent-encoding escapes both), splitting after the "?"
      at '&' gives one piece per parameter, in order, and splitting a piece
      at '=' gives the encoded key and the encoded value. */
  lemma QueryStringParses(params: seq<(string, string)>, encode: string -> string)
    requires |params| > 0
    requires forall v :: '&' !in encode(v) && '=' !in encode(v)
    ensures var q := QueryString(params, encode);
            var parts := Split(q[1..], '&');
            |parts| == |params| &&
            forall i :: 0 <= i < |params| ==> Split(parts[i], '=') == [encode(params[i].0), encode(params[i].1)]
  {
    var ps := EncodedPairs(params, encode);
    forall i | 0 <= i < |ps|
      ensures '&' !in ps[i]
      ensures Split(ps[i], '=') == [encode(params[i].0), encode(params[i].1)]
    {
      var k := encode(params[i].0);
      var v := encode(params[i].1);
      assert ps[i] == k + "=" + v;
      SplitJoin([k, v], '=');
    }
    SplitJoin(ps, '&');
  }

  /** The loop that pushes one encoded pair per parameter, then the join. */
  method BuildQuery(params: seq<(string, string)>, encode: string -> string) returns (q: string)
    ensures q == QueryString(params, encode)
  {
    var queryParts: seq<string> := [];
    for i := 0 to |params|
      invariant queryParts == EncodedPairs(params[..i], encode)
    {
      var (key, value) := params[i];
      queryParts := queryParts + [encode(key) + "=" + encode(value)];
      assert params[..i + 1] == params[..i] + [params[i]];
      EncodedPairsSnoc(params[..i], params[i], encode);
    }
    assert params[..|params|] == params;
    if |queryParts| == 0 {
      q := "";
    } else {
      q := "?" + Join(queryParts, '&');
    }
  }

  lemma EncodedPairsSnoc(params: seq<(string, string)>, kv: (string, string), encode: string -> string)
    ensures EncodedPairs(params + [kv], encode) == EncodedPairs(params, encode) + [EncodedPair(kv, encode)]
  {
    var l := EncodedPairs(params + [kv], encode);
    var r := EncodedPairs(params, encode) + [EncodedPair(kv, encode)];
    assert |l| == |r|;
    forall i | 0 <= i < |l|
      ensures l[i] == r[i]
    {
      assert (params + [kv])[i] == if i < |params| then params[i] else kv;
    }
  }

  // ---------------------------------------------------------------------
  // The response: status, `Content-Length`, body
  // ---------------------------------------------------------------------

  /** A 2xx status goes on; any other is an error carrying the code. */
  function StatusCheck(code: nat): (r: Outcome<()>)
    ensures r.Ok? <==> 200 <= code < 300
    ensures r.Err? ==> r.error == HttpStatus(code)
    ensures !r.Panic?
  {
    if 200 <= code < 300 then Ok(()) else Err(HttpStatus(code))
  }

  function AsciiLower(c: char): char {
    if 'A' <= c <= 'Z' then ((c as int) + 32) as char else c
  }

  /** `eq_ignore_ascii_case`. */
  predicate EqIgnoreAsciiCase(a: string, b: string) {
    |a| == |b| && forall i :: 0 <= i < |a| ==> AsciiLower(a[i]) == AsciiLower(b[i])
  }

  /** `Iterator::position` of the first header with the given name, in any
      ASCII case; the number of headers when there is none. */
  function FindHeader(headers: seq<(string, string)>, name: string): (i: nat)
    ensures i <= |headers|
    ensures i < |headers| ==> EqIgnoreAsciiCase(headers[i].0, name)
    ensures forall j :: 0 <= j < i ==> !EqIgnoreAsciiCase(headers[j].0, name)
  {
    if |headers| == 0 || EqIgnoreAsciiCase(headers[0].0, name) then 0
    else 1 + FindHeader(headers[1..], name)
  }

  /** The body length announced by the first `Content-Length` header,
      when its value parses as a `usize` (64 bits). A later header of the
      same name is never consulted. */
  function ContentLength(headers: seq<(string, string)>): (n: Option<nat>)
    ensures n.Some? ==>
              exists i :: 0 <= i < |headers| && EqIgnoreAsciiCase(headers[i].0, "content-length") && ParseU64(headers[i].1) == Some(n.value)
    ensures (forall i :: 0 <= i < |headers| ==> !EqIgnoreAsciiCase(headers[i].0, "content-length")) ==> n.None?
    ensures forall i :: 0 <= i < |headers| && EqIgnoreAsciiCase(headers[i].0, "content-length") &&
                        (forall j :: 0 <= j < i ==> !EqIgnoreAsciiCase(headers[j].0, "content-length")) ==>
              (n.Some? <==> ParseU64(headers[i].1).Some?) && (n.Some? ==> n.value == ParseU64(headers[i].1).value)
  {
    var i := FindHeader(headers, "content-length");
    if i == |headers| then None
    else match ParseU64(headers[i].1)
      case Some(v) => Some(v)
      case None => None
  }

  /** The connection after the response head: the bytes the server still
      sends, delivered at most `burst` at a time, then either a clean end
      of stream or, when `failing`, a read error (a broken connection or a
      timeout). `log` records each read's requested and received size. */
  class ByteStream {
    var pending: seq<byte>
    const failing: bool
    const burst: nat
    ghost var log: seq<(nat, nat)>

    ghost predicate Valid()
      reads this
    {
      burst > 0
    }

    constructor(data: seq<byte>, failing: bool, burst: nat)
      requires burst > 0
      ensures Valid() && pending == data && this.failing == failing && this.burst == burst && log == []
    {
      pending := data;
      this.failing := failing;
      this.burst := burst;
      log := [];
    }

    /** One `read` into a buffer of `max` bytes: some of the next bytes,
        none only at the end of the stream (or into an empty buffer), or
        an error once the bytes are used up on a failing connection. */
    method Read(max: nat) returns (r: Outcome<seq<byte>>)
      requires Valid()
      modifies this
      ensures old(pending) == [] && failing ==> r == Err(RequestFailed) && pending == old(pending)
      ensures !(old(pending) == [] && failing) ==>
                r.Ok? && |r.value| <= max && |r.value| <= |old(pending)| && r.value == old(pending)[..|r.value|] &&
                pending == old(pending)[|r.value|..] &&
                (max > 0 && old(pending) != [] ==> |r.value| > 0)
      ensures log == old(log) + [(max, if r.Ok? then |r.value| else 0)]
    {
      if pending == [] && failing {
        r := Err(RequestFailed);
        log := log + [(max, 0)];
      } else {
        var n := Min(Min(max, burst), |pending|);
        r := Ok(pending[..n]);
        pending := pending[n..];
        log := log + [(max, n)];
      }
    }
  }

  /** The size of `temp_buffer`. */
  const BufferSize: nat := 8192

  /** The bytes received over a log of reads. */
  ghost function Received(log: seq<(nat, nat)>): nat {
    if |log| == 0 then 0 else Received(log[..|log| - 1]) + log[|log| - 1].1
  }

  /** Each read of `log` came while fewer than `len` bytes had arrived,
      and asked for the bytes still missing, at most a buffer's worth. */
  ghost predicate Paced(log: seq<(nat, nat)>, len: nat) {
    if |log| == 0 then true
    else
      var before := log[..|log| - 1];
      Paced(before, len) && Received(before) < len &&
      log[|log| - 1].0 == Min(len - Received(before), BufferSize)
  }

  /** The `Content-Length` loop: read until `len` bytes have arrived or
      the stream ends. The body is the first `min(len, available)` bytes,
      so it never exceeds `len` and is short only at the end of the
      stream; every read asks for `min(remaining, 8192)` bytes; a read
      error (which happens only when the stream runs dry first) fails the
      request. */
  method ReadBody(stream: ByteStream, len: nat) returns (r: Outcome<seq<byte>>)
    requires stream.Valid()
    modifies stream
    ensures stream.Valid()
    ensures r.Err? <==> stream.failing && |old(stream.pending)| < len
    ensures r.Err? ==> r.error == RequestFailed
    ensures !r.Panic?
    ensures r.Ok? ==>
              |r.value| == Min(len, |old(stream.pending)|) &&
              r.value == old(stream.pending)[..|r.value|] && stream.pending == old(stream.pending)[|r.value|..]
    ensures |old(stream.log)| <= |stream.log| && Paced(stream.log[|old(stream.log)|..], len)
  {
    ghost var data := stream.pending;
    ghost var start := |stream.log|;
    var body: seq<byte> := [];
    var remaining: nat := len;
    while remaining > 0
      invariant stream.Valid()
      invariant remaining + |body| == len
      invariant |body| <= |data| && body == data[..|body|] && stream.pending == data[|body|..]
      invariant start <= |stream.log|
      invariant Paced(stream.log[start..], len) && Received(stream.log[start..]) == |body|
      decreases remaining
    {
      var toRead := Min(remaining, BufferSize);
      ghost var before := stream.log[start..];
      var chunk := stream.Read(toRead);
      ghost var entry := stream.log[|stream.log| - 1];
      assert stream.log[start..] == before + [entry];
      assert (before + [entry])[..|before|] == before;
      if !chunk.Ok? {
        return Err(RequestFailed);
      }
      var bytes := chunk.value;
      if |bytes| == 0 {
        assert toRead > 0;
        break;
      }
      assert data[..|body| + |bytes|] == body + bytes;
      body := body + bytes;
      remaining := remaining - |bytes|;
    }
    return Ok(body);
  }

  /** The loop without `Content-Length`: read to the end of the stream. */
  method ReadToEnd(stream: ByteStream) returns (r: Outcome<seq<byte>>)
    requires stream.Valid()
    modifies stream
    ensures stream.Valid()
    ensures stream.failing ==> r == Err(RequestFailed)
    ensures !stream.failing ==> r == Ok(old(stream.pending)) && stream.pending == []
  {
    ghost var data := stream.pending;
    var body: seq<byte> := [];
    while true
      invariant stream.Valid()
      invariant |body| <= |data| && body == data[..|body|] && stream.pending == data[|body|..]
      decreases |stream.pending|
    {
      var chunk := stream.Read(BufferSize);
      match chunk {
        case Err(e) =>
          return Err(RequestFailed);
        case Panic(site) =>
          assert false;
        case Ok(bytes) =>
          if |bytes| == 0 {
            break;
          }
          assert data[..|body| + |bytes|] == body + bytes;
          body := body + bytes;
      }
    }
    assert body == data;
    return Ok(body);
  }

  /** The decoded response head: status code and headers. */
  datatype ResponseHead = ResponseHead(status: nat, headers: seq<(string, string)>)

  /** `send_request`. The connection, sending the request and decoding the
      head are given: `sent` says whether connecting, writing and flushing
      succeeded, `head` is the decoder's response head (`None`: the stream
      ended first), and `stream` is what the socket still holds after the
      decoder's last read (body bytes that arrived in the same read as the
      head went to the decoder and are not in it). The URI is
      the path and the query string; a non-2xx status fails before the
      body is read; the body is read to `Content-Length` or to the end. */
  method SendRequest(path: string, params: seq<(string, string)>, encode: string -> string,
                     sent: bool, head: Option<ResponseHead>, stream: ByteStream)
    returns (uri: string, r: Outcome<seq<byte>>)
    requires stream.Valid()
    modifies stream
    ensures uri == path + QueryString(params, encode)
    ensures !sent || head.None? ==> r == Err(RequestFailed) && stream.pending == old(stream.pending)
    ensures sent && head.Some? && !(200 <= head.value.status < 300) ==>
              r == Err(HttpStatus(head.value.status)) && stream.pending == old(stream.pending)
    ensures r.Ok? ==> sent && head.Some? && 200 <= head.value.status < 300
    ensures r.Ok? && ContentLength(head.value.headers).Some? ==>
              var n := ContentLength(head.value.headers).value;
              |r.value| == Min(n, |old(stream.pending)|) && r.value == old(stream.pending)[..|r.value|]
    ensures r.Ok? && ContentLength(head.value.headers).None? ==> r.value == old(stream.pending)
    ensures !r.Panic?
    ensures sent && head.Some? && 200 <= head.value.status < 300 ==>
              (r.Ok? <==> !stream.failing || (ContentLength(head.value.headers).Some? &&
                                              ContentLength(head.value.headers).value <= |old(stream.pending)|))
    ensures sent && head.Some? && 200 <= head.value.status < 300 && r.Err? ==> r.error == RequestFailed
  {
    var queryString := BuildQuery(params, encode);
    uri := path + queryString;
    if !sent || head.None? {
      return uri, Err(RequestFailed);
    }
    var response := head.value;
    var status := StatusCheck(response.status);
    if status.Err? {
      return uri, Err(status.error);
    }
    var contentLength := ContentLength(response.headers);
    if contentLength.Some? {
      r := ReadBody(stream, contentLength.value);
    } else {
      r := ReadToEnd(stream);
    }
  }

  // ---------------------------------------------------------------------
  // `execute_function` and `is_connected`
  // ---------------------------------------------------------------------

  /** The parameter map of `execute_function`: "Function" is inserted
      first and the caller's map extends it, so a caller's own "Function"
      entry replaces the function name. */
  function FunctionParams(functionName: string, params: map<string, string>): (m: map<string, string>)
    ensures m.Keys == params.Keys + {"Function"}
    ensures m["Function"] == if "Function" in params then params["Function"] else functionName
    ensures forall k :: k in params ==> m[k] == params[k]
  {
    map["Function" := functionName] + params
  }

  /** `pairs` lists the entries of `m`, each key once, in some order (the
      `HashMap`'s iteration order). */
  predicate Enumerates(pairs: seq<(string, string)>, m: map<string, string>) {
    (forall i :: 0 <= i < |pairs| ==> pairs[i].0 in m && m[pairs[i].0] == pairs[i].1) &&
    (forall i, j :: 0 <= i < j < |pairs| ==> pairs[i].0 != pairs[j].0) &&
    (forall k :: k in m ==> exists i :: 0 <= i < |pairs| && pairs[i].0 == k)
  }

  /** `execute_function`: one request to "/api" whose query lists the
      function parameter map in the map's iteration order `order`. The
      query always carries a "Function" pair, with the caller's value if
      the caller gave one. */
  method ExecuteFunction(functionName: string, params: map<string, string>, order: seq<(string, string)>,
                         encode: string -> string, sent: bool, head: Option<ResponseHead>, stream: ByteStream)
    returns (uri: string, r: Outcome<()>)
    requires Enumerates(order, FunctionParams(functionName, params))
    requires stream.Valid()
    modifies stream
    ensures uri == "/api" + QueryString(order, encode)
    ensures exists i :: 0 <= i < |order| &&
              order[i] == ("Function", if "Function" in params then params["Function"] else functionName)
    ensures r.Ok? ==> sent && head.Some? && 200 <= head.value.status < 300
    ensures sent && head.Some? && !(200 <= head.value.status < 300) ==> r == Err(HttpStatus(head.value.status))
    ensures !sent || head.None? ==> r == Err(RequestFailed)
    ensures sent && head.Some? && 200 <= head.value.status < 300 ==>
              (r.Ok? <==> !stream.failing || (ContentLength(head.value.headers).Some? &&
                                              ContentLength(head.value.headers).value <= |old(stream.pending)|))
    ensures sent && head.Some? && 200 <= head.value.status < 300 && r.Err? ==> r.error == RequestFailed
    ensures !r.Panic?
  {
    var response;
    uri, response := SendRequest("/api", order, encode, sent, head, stream);
    if response.Ok? {
      r := Ok(());
    } else {
      r := Err(response.error);
    }
  }

  /** `is_connected`: whether a plain request to "/api" succeeds. */
  method IsConnected(encode: string -> string, sent: bool, head: Option<ResponseHead>, stream: ByteStream)
    returns (connected: bool)
    requires stream.Valid()
    modifies stream
    ensures connected ==> sent && head.Some? && 200 <= head.value.status < 300
    ensures sent && head.Some? && 200 <= head.value.status < 300 && !stream.failing ==> connected
  {
    var uri, response := SendRequest("/api", [], encode, sent, head, stream);
    connected := response.Ok?;
  }

  /** `get_xml_state`: the body of a plain request to "/api", decoded as
      UTF-8 and deserialised. */
  function GetXmlState(body: Outcome<seq<byte>>, f: Foreign): (r: Outcome<VmixState>)
    ensures body.Err? ==> r == Err(body.error)
    ensures body.Ok? && f.utf8(body.value).None? ==> r == Err(InvalidUtf8)
    ensures r.Ok? ==> body.Ok? && f.utf8(body.value).Some? && f.parseXml(f.utf8(body.value).value) == Some(r.value)
    ensures body.Ok? && f.utf8(body.value).Some? ==>
              (r == Err(InvalidXml) <==> f.parseXml(f.utf8(body.value).value).None?)
    ensures body.Ok? && f.utf8(body.value).Some? && f.parseXml(f.utf8(body.value).value).Some? ==>
              r == Ok(f.parseXml(f.utf8(body.value).value).value)
    ensures r.Panic? <==> body.Panic?
  {
    match body
    case Err(e) => Err(e)
    case Panic(site) => Panic(site)
    case Ok(bytes) =>
      match f.utf8(bytes)
      case None => Err(InvalidUtf8)
      case Some(text) =>
        match f.parseXml(text)
        case None => Err(InvalidXml)
        case Some(state) => Ok(state)
  }

  // ---------------------------------------------------------------------
  // The IPv6 host finding
  // ---------------------------------------------------------------------

  /** As written, a client made from an IPv6 socket address has a host
      with an unbracketed ':', so its base URL is not a valid URL. */
  lemma V6BaseUrlAsWritten(text: string, port: u16)
    requires WellFormed(V6(text))
    ensures !ValidUrlHost(NewAsWritten(SocketAddr(V6(text), port)).host)
    ensures GetBaseUrl(NewAsWritten(SocketAddr(V6(text), port))) == "http://" + text + ":" + FormatDecimal(port) + "/api"
  {
    assert !IsHexDigit('[') && '[' != ':' && '[' != '.';
    assert text[0] != '[';
  }
}
