/**
 * The websocket client of autogoal_remote/distributed/client.py: how a server
 * address is chosen and written, and the request/reply exchanges of the
 * algorithm API.
 */
module Client {
  import opened Wrappers
  import opened Chunking
  import opened Protocol

  /** A stored connection alias: the ip and port it names. */
  datatype Alias = Alias(name: string, ip: string, port: int)

  /** `get_address(ip, port, alias)`, where `resolve_alias` is the lookup of the
      name in the stored connections. */
  function GetAddress(ip: Option<string>, port: Option<int>, alias: Option<string>, connections: map<string, Alias>): (r: (Option<string>, Option<int>))
    ensures alias.Some? && alias.value in connections ==>
      r == (Some(connections[alias.value].ip), Some(connections[alias.value].port))
    ensures alias.None? || alias.value !in connections ==> r == (ip, port)
  {
    if alias.Some? && alias.value in connections then
      (Some(connections[alias.value].ip), Some(connections[alias.value].port))
    else (ip, port)
  }

  /** Resolving an address a second time with the same alias changes nothing. */
  lemma GetAddressStable(ip: Option<string>, port: Option<int>, alias: Option<string>, connections: map<string, Alias>)
    ensures var r := GetAddress(ip, port, alias, connections);
      GetAddress(r.0, r.1, alias, connections) == r
  {
  }

  const DefaultHost: string := "0.0.0.0"
  const DefaultPort: int := 8000

  /** `ip or "0.0.0.0"`: both None and the empty string are falsy. */
  function HostOr(ip: Option<string>): (host: string)
    ensures host != ""
    ensures ip.Some? && ip.value != "" ==> host == ip.value
    ensures ip.None? || ip.value == "" ==> host == DefaultHost
  {
    if ip.Some? && ip.value != "" then ip.value else DefaultHost
  }

  /** `port or 8000`: both None and 0 are falsy. */
  function PortOr(port: Option<int>): (p: int)
    ensures p != 0
    ensures port.Some? && port.value != 0 ==> p == port.value
    ensures port.None? || port.value == 0 ==> p == DefaultPort
  {
    if port.Some? && port.value != 0 then port.value else DefaultPort
  }

  predicate IsDigit(c: char) { '0' <= c <= '9' }

  /** The decimal digits of `n`, most significant first, with no leading zero. */
  function NatToString(n: nat): (s: string)
    ensures |s| >= 1
    ensures forall i :: 0 <= i < |s| ==> IsDigit(s[i])
    ensures |s| > 1 ==> s[0] != '0'
  {
    if n < 10 then [(n + '0' as int) as char]
    else NatToString(n / 10) + [((n % 10) + '0' as int) as char]
  }

  /** `str(i)` of a Python int. */
  function IntToString(i: int): (s: string)
    ensures |s| >= 1
    ensures ':' !in s
  {
    if i < 0 then "-" + NatToString(-i) else NatToString(i)
  }

  /** The value of a string of decimal digits. */
  function DecimalValue(s: string): nat
  {
    if s == [] then 0 else 10 * DecimalValue(s[..|s| - 1]) + if IsDigit(s[|s| - 1]) then (s[|s| - 1] as int - '0' as int) else 0
  }

  /** `int(s)` on the decimal text of an integer. */
  function ParseInt(s: string): int
  {
    if |s| >= 1 && s[0] == '-' then -(DecimalValue(s[1..]) as int) else DecimalValue(s) as int
  }

  /** Reading the digits back gives the number. */
  lemma {:induction false} NatToStringValue(n: nat)
    ensures DecimalValue(NatToString(n)) == n
  {
    var s := NatToString(n);
    if n >= 10 {
      NatToStringValue(n / 10);
      assert s[..|s| - 1] == NatToString(n / 10);
    }
  }

  /** `int(str(i)) == i` */
  lemma IntToStringValue(i: int)
    ensures ParseInt(IntToString(i)) == i
  {
    if i < 0 {
      NatToStringValue(-i);
      assert IntToString(i)[1..] == NatToString(-i);
    } else {
      NatToStringValue(i);
    }
  }

  /** `build_route(ip, port)`: a websocket route to the host or its default,
      followed by a colon and the port. */
  function BuildRoute(ip: Option<string>, port: Option<int>): (route: string)
    ensures |route| > 6 + |HostOr(ip)|
    ensures route[..5] == "ws://" && route[5..5 + |HostOr(ip)|] == HostOr(ip)
    ensures route[5 + |HostOr(ip)|] == ':' && ':' !in route[6 + |HostOr(ip)|..]
  {
    "ws://" + HostOr(ip) + ":" + IntToString(PortOr(port))
  }

  /** The text after the last occurrence of `c` in `s` (all of `s` when there
      is none). */
  function AfterLast(s: string, c: char): string
  {
    if s == [] then []
    else if s[|s| - 1] == c then []
    else AfterLast(s[..|s| - 1], c) + [s[|s| - 1]]
  }

  lemma {:induction false} AfterLastOf(a: string, c: char, b: string)
    requires c !in b
    ensures AfterLast(a + [c] + b, c) == b
    decreases |b|
  {
    var s := a + [c] + b;
    if b == [] {
      assert s[|s| - 1] == c;
    } else {
      var b' := b[..|b| - 1];
      assert s[..|s| - 1] == a + [c] + b';
      AfterLastOf(a, c, b');
      assert b == b' + [b[|b| - 1]];
    }
  }

  /** The route names the default host for a falsy ip, the given one otherwise,
      and the port that follows its last colon is `port or 8000`, whatever
      colons the host holds. */
  lemma BuildRouteSpec(ip: Option<string>, port: Option<int>)
    ensures var route := BuildRoute(ip, port);
      && route[..5] == "ws://"
      && route[5..5 + |HostOr(ip)|] == (if ip.Some? && ip.value != "" then ip.value else DefaultHost)
      && ParseInt(AfterLast(route, ':')) == (if port.Some? && port.value != 0 then port.value else DefaultPort)
  {
    var route := BuildRoute(ip, port);
    var digits := IntToString(PortOr(port));
    assert route == ("ws://" + HostOr(ip)) + [':'] + digits;
    AfterLastOf("ws://" + HostOr(ip), ':', digits);
    IntToStringValue(PortOr(port));
  }

  /** The chunk size of the call request. */
  const RequestChunkSize: int := 500

  /** The prefix of the exception `call_algorithm` raises for a server error. */
  const ProxyErrorPrefix: string := "Proxy Error (server-side). "

  /** Why a client exchange raised. */
  datatype ClientError =
    | Transport(cause: ReceiveError)   // receive_large_message raised
    | NoReply                          // recv: nothing arrived, or it was not JSON
    | NotAnObject                      // `.get` on a reply that is not a dict
    | ProxyError(message: string)      // the server reported an error string
    | ProxyErrorValue(error: Json)     // the server reported a non-string error

  /** The error check of `call_algorithm`: a non-null `error` field raises with
      the server's message, any other reply is returned as it is. */
  function CheckReply(response: Json): (r: Result<Json, ClientError>)
    ensures r.Success? <==> response.Object? && Get(response.fields, "error") == Null
    ensures r.Success? ==> r.value == response
    ensures response.Object? && Get(response.fields, "error").Str? ==>
      r == Failure(ProxyError(ProxyErrorPrefix + Get(response.fields, "error").s))
  {
    if !response.Object? then Failure(NotAnObject)
    else match Get(response.fields, "error")
      case Null => Success(response)
      case Str(s) => Failure(ProxyError(ProxyErrorPrefix + s))
      case e => Failure(ProxyErrorValue(e))
  }

  /** The reply `call_algorithm` reads from the frames after its request: a
      transport failure is raised as it is, and a returned reply is the JSON
      of the reassembled text and carries no error. */
  function CallReply(j: JsonText, incoming: seq<Frame>): (r: Result<Json, ClientError>)
    ensures Receive(incoming).result.Failure? ==> r == Failure(Transport(Receive(incoming).result.error))
    ensures r.Success? ==>
      && Receive(incoming).result.Success?
      && j.loads(Receive(incoming).result.value) == Some(r.value)
      && r.value.Object? && Get(r.value.fields, "error") == Null
  {
    match Receive(incoming).result
    case Failure(e) => Failure(Transport(e))
    case Success(text) =>
      match j.loads(text)
      case None => Failure(NoReply)
      case Some(response) => CheckReply(response)
  }

  /** `call_algorithm(uri, instance_id, attr, args, kwargs)` on an open
      connection: the request is sent in chunks of 500, and the reply is read
      with chunked reassembly and checked. */
  method CallAlgorithm(ws: WebSocket, j: JsonText, instanceId: string, attr: string, args: string, kwargs: string) returns (r: Result<Json, ClientError>)
    modifies ws
    ensures ws.outgoing == old(ws.outgoing) + Encoded(j.dumps(CallRequest(instanceId, attr, args, kwargs)), RequestChunkSize)
    ensures r == CallReply(j, old(ws.incoming))
    ensures ws.incoming == old(ws.incoming)[Receive(old(ws.incoming)).consumed..]
  {
    var request := CallRequest(instanceId, attr, args, kwargs);
    var _ := SendLargeMessage(ws, j.dumps(request), RequestChunkSize);
    var data := ReceiveLargeMessage(ws);
    if data.Failure? {
      return Failure(Transport(data.error));
    }
    var response := j.loads(data.value);
    if response.None? {
      return Failure(NoReply);
    }
    r := CheckReply(response.value);
  }

  /** `has_attr(uri, instance_id, attr)` on an open connection: one JSON
      message each way, with no error check. */
  method HasAttr(ws: WebSocket, j: JsonText, instanceId: string, attr: string) returns (r: Option<Json>)
    modifies ws
    ensures ws.outgoing == old(ws.outgoing) + [Message(j.dumps(AttrRequest(instanceId, attr)))]
    ensures r == ReceivedJson(j, old(ws.incoming))
    ensures ws.incoming == if old(ws.incoming) == [] then [] else old(ws.incoming)[1..]
  {
    SendJson(ws, j, AttrRequest(instanceId, attr));
    r := ReceiveJson(ws, j);
  }

  /** `instantiate(uri, algorithm_dto, args, kwargs)` on an open connection. */
  method Instantiate(ws: WebSocket, j: JsonText, dto: Json, args: string, kwargs: string) returns (r: Option<Json>)
    modifies ws
    ensures ws.outgoing == old(ws.outgoing) + [Message(j.dumps(InstantiateRequest(dto, args, kwargs)))]
    ensures r == ReceivedJson(j, old(ws.incoming))
    ensures ws.incoming == if old(ws.incoming) == [] then [] else old(ws.incoming)[1..]
  {
    SendJson(ws, j, InstantiateRequest(dto, args, kwargs));
    r := ReceiveJson(ws, j);
  }
}
