/** The earlier HTTP client of src/http.rs, built on reqwest: it stores a
    ready-made base URL, appends the query pairs to a parsed URL, and
    judges a response by reqwest's success test. The HTTP exchange itself
    is given as its outcome: `None` when the request fails in transport,
    otherwise the status code. */
module LegacyHttp {
  import opened Common
  import opened RustText
  import opened Net
  import HttpClient

  /** `HttpVmixClient` of src/http.rs: only the base URL matters here. */
  datatype Client = Client(baseUrl: string)

  /** `new`: "http://", the socket address as `Display` prints it (IPv6 in
      brackets), "/api". */
  function New(addr: SocketAddr): (c: Client)
    ensures c.baseUrl == HttpClient.GetBaseUrl(HttpClient.New(addr))
  {
    Client("http://" + SocketAddrText(addr) + "/api")
  }

  /** `new_with_host_port`: "http://host:port/api". */
  function NewWithHostPort(host: string, port: u16): (c: Client)
    ensures c.baseUrl == HttpClient.GetBaseUrl(HttpClient.NewWithHostPort(host, port))
  {
    Client("http://" + host + ":" + FormatDecimal(port) + "/api")
  }

  /** Both constructors and the vmix-http client agree: for an IPv4
      address `new` gives what `new_with_host_port` gives for the address
      text and port, which is also vmix-http's base URL; for any address
      it is the base URL of vmix-http's client with the IPv6 host in
      brackets. */
  lemma BaseUrlsAgree(addr: SocketAddr)
    ensures addr.ip.V4? ==> New(addr) == NewWithHostPort(IpText(addr.ip), addr.port)
    ensures addr.ip.V4? ==> New(addr).baseUrl == HttpClient.GetBaseUrl(HttpClient.NewAsWritten(addr))
    ensures New(addr).baseUrl == HttpClient.GetBaseUrl(HttpClient.New(addr))
  {
    var p := FormatDecimal(addr.port);
    match addr.ip {
      case V4(_, _, _, _) =>
        assert "http://" + (IpText(addr.ip) + ":" + p) + "/api" == "http://" + IpText(addr.ip) + ":" + p + "/api";
      case V6(text) =>
        assert "http://" + ("[" + text + "]:" + p) + "/api" == "http://" + ("[" + text + "]") + ":" + p + "/api";
    }
  }

  /** The query pairs of `execute_function`, appended one at a time:
      "Function" first, then the caller's parameters in the map's
      iteration order `params`. */
  method FunctionPairs(functionName: string, params: seq<(string, string)>) returns (pairs: seq<(string, string)>)
    ensures pairs == [("Function", functionName)] + params
  {
    pairs := [("Function", functionName)];
    for i := 0 to |params|
      invariant pairs == [("Function", functionName)] + params[..i]
    {
      var (key, value) := params[i];
      pairs := pairs + [(key, value)];
      assert params[..i + 1] == params[..i] + [params[i]];
    }
    assert params[..|params|] == params;
  }

  /** Unlike the vmix-http client, whose map lets a caller's "Function"
      replace the function name, this client sends both: the function
      name first and the caller's "Function" pair after it. */
  lemma DuplicateFunctionKept(functionName: string, params: seq<(string, string)>, i: nat)
    requires i < |params| && params[i].0 == "Function"
    ensures var pairs := [("Function", functionName)] + params;
            |set j | 0 <= j < |pairs| && pairs[j].0 == "Function"| >= 2
    ensures var m := HttpClient.FunctionParams(functionName, map[params[i].0 := params[i].1]);
            m.Keys == {"Function"} && m["Function"] == params[i].1
  {
    var pairs := [("Function", functionName)] + params;
    var named := set j | 0 <= j < |pairs| && pairs[j].0 == "Function";
    assert pairs[i + 1] == params[i];
    assert {0, i + 1} <= named;
    assert named == {0, i + 1} + (named - {0, i + 1});
  }

  /** `execute_function`: the URL is the base URL followed by the
      "Function" pair and the caller's pairs, form-encoded by `encode`;
      the call fails if the base URL does not parse (`urlOk`) or the
      request fails in transport, and otherwise succeeds exactly on a 2xx
      status. */
  method ExecuteFunction(c: Client, functionName: string, params: seq<(string, string)>,
                         encode: string -> string, urlOk: bool, exchange: Option<nat>)
    returns (url: string, r: Outcome<()>)
    ensures urlOk ==> url == c.baseUrl + HttpClient.QueryString([("Function", functionName)] + params, encode)
    ensures !urlOk ==> r == Err(RequestFailed)
    ensures urlOk && exchange.None? ==> r == Err(RequestFailed)
    ensures urlOk && exchange.Some? ==> r == HttpClient.StatusCheck(exchange.value)
  {
    if !urlOk {
      return c.baseUrl, Err(RequestFailed);
    }
    var pairs := FunctionPairs(functionName, params);
    url := c.baseUrl + HttpClient.QueryString(pairs, encode);
    match exchange {
      case None => r := Err(RequestFailed);
      case Some(code) =>
        if 200 <= code < 300 {
          r := Ok(());
        } else {
          r := Err(HttpStatus(code));
        }
    }
  }

  /** `is_connected`: a request to the base URL got through and its
      status is 2xx. */
  function IsConnected(exchange: Option<nat>): (connected: bool)
    ensures connected <==> exchange.Some? && HttpClient.StatusCheck(exchange.value).Ok?
  {
    match exchange
    case None => false
    case Some(code) => 200 <= code <= 299
  }

  /** `get_xml_state`: the response text, whatever the status, handed to
      the XML deserialiser. reqwest's `text()` decodes leniently, so the
      text is given. */
  function GetXmlState(text: Option<string>, f: Foreign): (r: Outcome<VmixState>)
    ensures text.None? ==> r == Err(RequestFailed)
    ensures text.Some? ==> (r.Ok? <==> f.parseXml(text.value).Some?)
    ensures r.Ok? ==> f.parseXml(text.value) == Some(r.value)
    ensures !r.Panic?
  {
    match text
    case None => Err(RequestFailed)
    case Some(t) =>
      match f.parseXml(t)
      case None => Err(InvalidXml)
      case Some(state) => Ok(state)
  }
}
