/** The shared helpers of controller/base.go: the JSON reply every handler
    sends through `responseHandler`, and the URL normalisation `CheckHTTP`
    with the address formatting `Builder` feeds it. */
module ControllerBase {
  import opened GoText
  import opened Results

  /** A JSON value as gin renders it. */
  datatype Json =
    | JNull
    | JBool(b: bool)
    | JInt(i: int)
    | JStr(s: string)
    | JList(items: seq<Json>)
    | JObj(fields: map<string, Json>)

  /** One HTTP reply: a status code and its body (`NoBody` when a recovered
      panic aborts the handler before it writes one). */
  datatype Body = NoBody | JsonBody(json: Json)
  datatype Response = Response(code: int, body: Body)

  const StatusOK := 200
  const StatusCreated := 201
  const StatusBadRequest := 400
  const StatusNotFound := 404
  const StatusInternalServerError := 500

  /** The prefix put in front of every error text `responseHandler` sends. */
  const ErrorPrefix := "platform: "

  /** A JSON object with a single string member, as `gin.H{key: text}`. */
  function Single(key: string, text: string): Json
  {
    JObj(map[key := JStr(text)])
  }

  /** `responseHandler(body, err, c, statusCode...)`, where `verb` is the
      request's HTTP method. An error is reported under "message", prefixed
      with "platform: "; otherwise `body` is sent as it is. An explicit status
      code always wins; without one an error gives 400, a POST 201 and any
      other method 200. */
  function ResponseHandler(body: Json, err: Option<string>, verb: string, statusCode: seq<int>): (r: Response)
    ensures |statusCode| > 0 ==> r.code == statusCode[0]
    ensures statusCode == [] && err.Some? ==> r.code == StatusBadRequest
    ensures statusCode == [] && err.None? && verb == "POST" ==> r.code == StatusCreated
    ensures statusCode == [] && err.None? && verb != "POST" ==> r.code == StatusOK
    ensures err.None? ==> r.body == JsonBody(body)
    ensures err.Some? ==>
      && r.body.JsonBody? && r.body.json.JObj?
      && r.body.json.fields.Keys == {"message"}
      && r.body.json.fields["message"].JStr?
      && var text := r.body.json.fields["message"].s;
         HasPrefix(text, ErrorPrefix) && text[|ErrorPrefix|..] == err.value
  {
    match err
    case Some(e) =>
      var code := if |statusCode| > 0 then statusCode[0] else StatusBadRequest;
      Response(code, JsonBody(Single("message", ErrorPrefix + e)))
    case None =>
      var code := if |statusCode| > 0 then statusCode[0] else if verb == "POST" then StatusCreated else StatusOK;
      Response(code, JsonBody(body))
  }

  /** The address already names the "http" or "https" scheme. */
  predicate HasScheme(address: string)
  {
    HasPrefix(address, "http://") || HasPrefix(address, "https://")
  }

  /** `CheckHTTP(address)`: an address with a scheme is kept as it is; any
      other gets "http://" in front. */
  function CheckHttp(address: string): (r: string)
    ensures HasScheme(r)
    ensures HasScheme(address) ==> r == address
    ensures !HasScheme(address) ==> r == "http://" + address
  {
    if !HasPrefix(address, "http://") && !HasPrefix(address, "https://") then "http://" + address else address
  }

  /** Normalising twice is normalising once. */
  lemma CheckHttpIdempotent(address: string)
    ensures CheckHttp(CheckHttp(address)) == CheckHttp(address)
  {
  }

  /** The text `Builder(ip, port)` hands to the URL parser: "<ip>:<port>"
      after `CheckHTTP`. A scheme is added exactly when `ip` has none, since
      the colon and the digits after it can never complete "http://" or
      "https://". */
  function BuilderAddress(ip: string, port: int): (r: string)
    ensures HasScheme(r)
    ensures r == (if HasScheme(ip) then "" else "http://") + ip + ":" + Itoa(port)
  {
    SchemeOfHostPort(ip, port);
    CheckHttp(ip + ":" + Itoa(port))
  }

  /** The host-and-port text has a scheme exactly when the host has one. */
  lemma SchemeOfHostPort(ip: string, port: int)
    ensures HasScheme(ip + ":" + Itoa(port)) <==> HasScheme(ip)
  {
    var d := Itoa(port);
    var a := ip + ":" + d;
    assert d[0] == '-' || IsDigit(d[0]);
    assert a[|ip|] == ':' && a[|ip| + 1] == d[0];
    if HasScheme(ip) {
      assert a[..|ip|] == ip;
      if HasPrefix(ip, "http://") {
        assert a[..7] == ip[..7];
      } else {
        assert a[..8] == ip[..8];
      }
    } else if HasPrefix(a, "http://") {
      PrefixThroughColon(ip, a, "http://");
    } else if HasPrefix(a, "https://") {
      PrefixThroughColon(ip, a, "https://");
    }
  }

  /** Where a scheme prefix of `ip + ":" + digits` cannot end inside the
      host: the host then already has that prefix. */
  lemma PrefixThroughColon(ip: string, a: string, scheme: string)
    requires scheme == "http://" || scheme == "https://"
    requires |a| >= |ip| + 2 && a[..|ip|] == ip && a[|ip|] == ':'
    requires a[|ip| + 1] == '-' || IsDigit(a[|ip| + 1])
    requires HasPrefix(a, scheme)
    ensures HasPrefix(ip, scheme)
  {
    assert ip[..|scheme|] == a[..|scheme|];
  }

  /** The proxy for the Rubix OS service is built for "http://0.0.0.0:1660". */
  lemma RosProxyAddress()
    ensures BuilderAddress("0.0.0.0", 1660) == "http://0.0.0.0:1660"
  {
    PortText();
    assert !HasScheme("0.0.0.0") by {
      assert "0.0.0.0"[0] != 'h';
    }
  }

  /** The decimal text of the Rubix OS port. */
  lemma PortText()
    ensures Itoa(1660) == "1660"
  {
    assert NatToDecimal(1) == "1";
    assert NatToDecimal(16) == "16";
    assert NatToDecimal(166) == "166";
  }
}
