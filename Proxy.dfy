/**
 * The client-side proxy of autogoal_remote/distributed/proxy.py: the class
 * `build_proxy_class` makes for a remote algorithm type, and how an instance
 * of it turns attribute access, calls, creation and deletion into requests to
 * the algorithm server.
 *
 * Each operation is composed with the server handlers of the `Server` module
 * over the transport of the `Chunking` and `Protocol` modules, so its result is
 * stated against the server's pool and the remote instance itself.
 */
module Proxy {
  import opened Wrappers
  import opened Chunking
  import opened Codec
  import opened Protocol
  import opened Server
  import opened Client

  /** The class `build_proxy_class` creates: its name, the descriptor behind
      it, and the class attributes it sets. */
  datatype ProxyClass = ProxyClass(name: string, dto: Descriptor, contrib: string, ip: string, port: int)

  /** `build_proxy_class(dto, ip, port)` */
  function BuildProxyClass(dto: Descriptor, ip: Option<string>, port: Option<int>): (c: ProxyClass)
    ensures c.dto == dto && c.contrib == dto.contrib
  {
    var host := HostOr(ip);
    var p := PortOr(port);
    ProxyClass(host + ":" + IntToString(p) + "-" + dto.name, dto, dto.contrib, host, p)
  }

  /** A falsy ip or port is stored as the default and any other as given; the
      class is named `{ip}:{port}-{dto.name}` from the stored values. */
  lemma ProxyClassNaming(dto: Descriptor, ip: Option<string>, port: Option<int>)
    ensures var c := BuildProxyClass(dto, ip, port);
      && c.ip == (if ip.Some? && ip.value != "" then ip.value else "0.0.0.0")
      && c.port == (if port.Some? && port.value != 0 then port.value else 8000)
      && c.name[..|c.ip| + 1] == c.ip + ":"
      && c.name[|c.name| - |dto.name| - 1..] == "-" + dto.name
      && ParseInt(c.name[|c.ip| + 1..|c.name| - |dto.name| - 1]) == c.port
  {
    var c := BuildProxyClass(dto, ip, port);
    NameParts(c.ip, IntToString(c.port), dto.name);
    IntToStringValue(c.port);
  }

  /** The three parts of a name `{a}:{b}-{n}` are found at their places. */
  lemma NameParts(a: string, b: string, n: string)
    ensures var s := a + ":" + b + "-" + n;
      && s[..|a| + 1] == a + ":"
      && s[|s| - |n| - 1..] == "-" + n
      && s[|a| + 1..|s| - |n| - 1] == b
  {
    var s := a + ":" + b + "-" + n;
    assert s == (a + ":") + b + ("-" + n);
  }

  /** The stored ip and port are already truthy, so the routes the instances
      build from them are the route of the arguments. */
  lemma ProxyClassRoute(dto: Descriptor, ip: Option<string>, port: Option<int>)
    ensures var c := BuildProxyClass(dto, ip, port);
      BuildRoute(Some(c.ip), Some(c.port)) == BuildRoute(ip, port)
  {
  }

  /** What the class's `input_types`, `init_input_types`,
      `get_inner_signature` and `output_type` return when called: each loads
      its own field of the descriptor, and raises on its own. */
  datatype Signature<T> = Signature(
    inputTypes: Result<T, LoadError>,
    initInputTypes: Result<T, LoadError>,
    innerSignature: Result<T, LoadError>,
    outputType: Result<T, LoadError>)

  /** Text that `loads` with the serializer `p` reads. */
  ghost predicate Loadable<T>(p: Pickler<T>, text: string)
  {
    IsLatin1(text) && p.deserialize(Encode(text).value).Success?
  }

  /** The four loaders of the class: the types with pickle, the signatures
      with dill, each succeeding exactly when its own field can be read. */
  function ProxySignature<T>(c: ProxyClass, sz: Serializers<T>): (s: Signature<T>)
    ensures s.inputTypes.Success? <==> Loadable(sz.pickle, c.dto.inputTypes)
    ensures s.initInputTypes.Success? <==> Loadable(sz.dill, c.dto.initInputTypes)
    ensures s.innerSignature.Success? <==> Loadable(sz.dill, c.dto.innerSignature)
    ensures s.outputType.Success? <==> Loadable(sz.pickle, c.dto.outputType)
  {
    Signature(
      Loads(sz, c.dto.inputTypes),
      Loads(sz, c.dto.initInputTypes, useDill := true),
      Loads(sz, c.dto.innerSignature, useDill := true),
      Loads(sz, c.dto.outputType))
  }

  /** A proxy class built from the descriptor of a local class reports that
      class's own types and signature, given faithful serializers. */
  lemma ProxySignatureOfLocalClass<T(!new)>(a: AlgorithmClass<T>, sz: Serializers<T>, isWord: char -> bool, ip: Option<string>, port: Option<int>)
    requires FromLocalClass(a, sz, isWord).Success?
    requires Faithful(sz.pickle) && Faithful(sz.dill)
    ensures var c := BuildProxyClass(FromLocalClass(a, sz, isWord).value, ip, port);
      ProxySignature(c, sz) == Signature(Success(a.inputTypes), Success(a.initInputTypes), Success(a.innerSignature), Success(a.outputType))
  {
    DescriptorFieldsRoundTrip(a, sz, isWord);
  }

  /** An instance of a proxy class: the id `__new__` assigned to it. */
  datatype RemoteAlgorithm<K> = RemoteAlgorithm(cls: ProxyClass, id: K)

  /** Python values the proxy builds: a str object, a tuple, a dict of keyword
      arguments, and `f"{value}"` formatting. */
  datatype Python<!Val> = Python(str: string -> Val, tuple: seq<Val> -> Val, dict: map<string, Val> -> Val, format: Val -> string)

  /** Why a proxy operation raised. */
  datatype ProxyFault =
    | ArgumentsNotSent(message: string) // dumps of the arguments raised
    | CallFailed(error: ClientError)   // call_algorithm raised
    | NoResult                         // the reply has no "result" string
    | NotLoadable(cause: LoadError)    // loads of the result raised
    | NoCapability                     // the has_attr reply could not be read
    | NoInstance                       // the instantiate reply could not be read

  /** One run of `call_algorithm` against the call handler: the request goes
      out in chunks, the server handles it, and the client reads the frames it
      sends back. `corrected` selects the server with chunked not-found
      replies; the proxy talks to the server as written. No instance is added
      or removed, and with a lossless JSON layer only a `run` request can
      change the pool. */
  function CallExchange<K, Inst, Val>(rt: Runtime<K, Inst, Val>, pool: map<K, Inst>, request: Json, corrected: bool): (r: (Result<Json, ClientError>, map<K, Inst>))
    ensures r.1.Keys == pool.Keys
    ensures Lossless(rt.json) && TextAt(request, "attr") != Some("run") ==> r.1 == pool
  {
    var text := rt.json.dumps(request);
    RequestDelivered(text);
    var received := Receive(Encoded(text, RequestChunkSize)).result;
    var out := if corrected then CorrectedCallSession(rt, pool, received) else CallSession(rt, pool, received);
    (CallReply(rt.json, Emitted(rt.json, out.reply)), out.pool)
  }

  /** `_proxy_call(attr, *args, **kwargs)`, with the server's pool before and
      after: arguments that cannot be dumped raise before anything is sent, no
      call adds or removes an instance, and with a lossless JSON layer a call
      of anything but `run` leaves the pool as it was. */
  function ProxyCall<K, Inst, Val>(rt: Runtime<K, Inst, Val>, pool: map<K, Inst>, p: RemoteAlgorithm<K>, attr: string, args: Val, kwargs: Val): (r: (Result<Val, ProxyFault>, map<K, Inst>))
    ensures Dumps(rt.sz, args).Failure? || Dumps(rt.sz, kwargs).Failure? ==> r.0.Failure? && r.0.error.ArgumentsNotSent? && r.1 == pool
    ensures r.0.Failure? && r.0.error.ArgumentsNotSent? ==> Dumps(rt.sz, args).Failure? || Dumps(rt.sz, kwargs).Failure?
    ensures r.1.Keys == pool.Keys
    ensures Lossless(rt.json) && attr != "run" ==> r.1 == pool
  {
    match (Dumps(rt.sz, args), Dumps(rt.sz, kwargs))
    case (Failure(e), _) => (Failure(ArgumentsNotSent(e)), pool)
    case (_, Failure(e)) => (Failure(ArgumentsNotSent(e)), pool)
    case (Success(a), Success(k)) =>
      var (reply, after) := CallExchange(rt, pool, CallRequest(rt.keys.show(p.id), attr, a, k), false);
      match reply
      case Failure(e) => (Failure(CallFailed(e)), after)
      case Success(response) =>
        match TextAt(response, "result")
        case None => (Failure(NoResult), after)
        case Some(data) =>
          match Loads(rt.sz, data)
          case Failure(e) => (Failure(NotLoadable(e)), after)
          case Success(v) => (Success(v), after)
  }

  /** A chunked request reaches the server as it was written. */
  lemma RequestDelivered(text: string)
    ensures Receive(Encoded(text, RequestChunkSize)).result == Success(text)
  {
    RoundTrip(text, RequestChunkSize, []);
    assert Encoded(text, RequestChunkSize) + [] == Encoded(text, RequestChunkSize);
  }

  /** A chunked reply reaches the client as it was written, and is checked. */
  lemma ReplyDelivered(j: JsonText, m: Json)
    requires Lossless(j)
    ensures CallReply(j, Emitted(j, Large(m))) == CheckReply(m)
  {
    RoundTrip(j.dumps(m), ReplyChunkSize, []);
    assert Encoded(j.dumps(m), ReplyChunkSize) + [] == Encoded(j.dumps(m), ReplyChunkSize);
  }

  /** The arguments the server decodes are the ones the proxy encoded. */
  lemma ArgumentsDelivered<K, Inst, Val(!new)>(rt: Runtime<K, Inst, Val>, id: K, attr: string, args: Val, kwargs: Val)
    requires Faithful(rt.sz.pickle)
    requires Dumps(rt.sz, args).Success? && Dumps(rt.sz, kwargs).Success?
    ensures var request := CallRequest(rt.keys.show(id), attr, Dumps(rt.sz, args).value, Dumps(rt.sz, kwargs).value);
      Argument(rt, request, "args") == Success(args) && Argument(rt, request, "kwargs") == Success(kwargs)
  {
    LoadsDumps(rt.sz, args, false);
    LoadsDumps(rt.sz, kwargs, false);
  }

  /** The whole system works as a local call when everything round-trips: a
      proxy call of a callable attribute other than `run` returns what the
      remote instance's method returns, and the pool is unchanged. */
  lemma ProxyCallInProcess<K(!new), Inst, Val(!new)>(rt: Runtime<K, Inst, Val>, pool: map<K, Inst>, p: RemoteAlgorithm<K>, attr: string, args: Val, kwargs: Val, f: Val, v: Val)
    requires Lossless(rt.json) && Readable(rt.keys) && Faithful(rt.sz.pickle)
    requires p.id in pool && attr != "run"
    requires rt.getAttr(pool[p.id], attr) == Some(f) && rt.isCallable(f)
    requires Dumps(rt.sz, args).Success? && Dumps(rt.sz, kwargs).Success?
    requires rt.dynamicCall(pool[p.id], attr, args, kwargs) == Success(v)
    requires Dumps(rt.sz, v).Success?
    ensures ProxyCall(rt, pool, p, attr, args, kwargs) == (Success(v), pool)
  {
    var request := CallRequest(rt.keys.show(p.id), attr, Dumps(rt.sz, args).value, Dumps(rt.sz, kwargs).value);
    RequestDelivered(rt.json.dumps(request));
    ArgumentsDelivered(rt, p.id, attr, args, kwargs);
    var d := Dumps(rt.sz, v).value;
    assert CallHandler(rt, pool, request) == Outcome(Large(ResultReply(d)), pool);
    ReplyDelivered(rt.json, ResultReply(d));
    LoadsDumps(rt.sz, v, false);
  }

  /** A proxied `run` goes to the bounded worker, and a replacement instance it
      returns takes the place of the pooled one. */
  lemma ProxyCallRun<K(!new), Inst, Val(!new)>(rt: Runtime<K, Inst, Val>, pool: map<K, Inst>, p: RemoteAlgorithm<K>, args: Val, kwargs: Val, f: Val, pair: Val, v: Val, replacement: Inst)
    requires Lossless(rt.json) && Readable(rt.keys) && Faithful(rt.sz.pickle)
    requires p.id in pool
    requires rt.getAttr(pool[p.id], "run") == Some(f) && rt.isCallable(f)
    requires Dumps(rt.sz, args).Success? && Dumps(rt.sz, kwargs).Success?
    requires rt.bounded(CallLimits, pool[p.id], "run", args, kwargs) == Success(pair)
    requires rt.unpack(pair) == Success((v, Some(replacement)))
    requires Dumps(rt.sz, v).Success?
    ensures ProxyCall(rt, pool, p, "run", args, kwargs) == (Success(v), pool[p.id := replacement])
  {
    var request := CallRequest(rt.keys.show(p.id), "run", Dumps(rt.sz, args).value, Dumps(rt.sz, kwargs).value);
    RequestDelivered(rt.json.dumps(request));
    ArgumentsDelivered(rt, p.id, "run", args, kwargs);
    var d := Dumps(rt.sz, v).value;
    assert CallHandler(rt, pool, request) == Outcome(Large(ResultReply(d)), pool[p.id := replacement]);
    ReplyDelivered(rt.json, ResultReply(d));
    LoadsDumps(rt.sz, v, false);
  }

  /** An exception of the remote method reaches the caller as the client's
      `Proxy Error (server-side).` exception with the server's message. */
  lemma ProxyCallRemoteError<K(!new), Inst, Val(!new)>(rt: Runtime<K, Inst, Val>, pool: map<K, Inst>, p: RemoteAlgorithm<K>, attr: string, args: Val, kwargs: Val, f: Val, message: string)
    requires Lossless(rt.json) && Readable(rt.keys) && Faithful(rt.sz.pickle)
    requires p.id in pool && attr != "run"
    requires rt.getAttr(pool[p.id], attr) == Some(f) && rt.isCallable(f)
    requires Dumps(rt.sz, args).Success? && Dumps(rt.sz, kwargs).Success?
    requires rt.dynamicCall(pool[p.id], attr, args, kwargs) == Failure(message)
    ensures ProxyCall(rt, pool, p, attr, args, kwargs) == (Failure(CallFailed(ProxyError(ProxyErrorPrefix + message))), pool)
  {
    var request := CallRequest(rt.keys.show(p.id), attr, Dumps(rt.sz, args).value, Dumps(rt.sz, kwargs).value);
    RequestDelivered(rt.json.dumps(request));
    ArgumentsDelivered(rt, p.id, attr, args, kwargs);
    assert CallHandler(rt, pool, request) == Outcome(Large(ErrorReply(message)), pool);
    ReplyDelivered(rt.json, ErrorReply(message));
  }

  /** As written, the call handler sends its not-found error with `send_json`,
      but `call_algorithm` reads with `receive_large_message`: the frame has no
      "type" field, so the client fails on it (KeyError at the first frame)
      and never sees the server's message. */
  lemma NotFoundUnreadable<K(!new), Inst, Val>(rt: Runtime<K, Inst, Val>, pool: map<K, Inst>, id: K, attr: string, args: string, kwargs: string)
    requires Lossless(rt.json) && Readable(rt.keys)
    requires id !in pool
    ensures var request := CallRequest(rt.keys.show(id), attr, args, kwargs);
      CallExchange(rt, pool, request, false) == (Failure(Transport(MissingType(0))), pool)
  {
    var request := CallRequest(rt.keys.show(id), attr, args, kwargs);
    RequestDelivered(rt.json.dumps(request));
    assert CallHandler(rt, pool, request) == Outcome(Single(NotFound(rt, id)), pool);
  }

  /** As written, a proxied call on an instance the pool no longer holds (a
      bound method kept past a delete, or `repr` of a deleted proxy) fails in
      the client's transport, not with the server's not-found message. */
  lemma ProxyCallAfterDelete<K(!new), Inst, Val>(rt: Runtime<K, Inst, Val>, pool: map<K, Inst>, p: RemoteAlgorithm<K>, attr: string, args: Val, kwargs: Val)
    requires Lossless(rt.json) && Readable(rt.keys) && p.id !in pool
    requires Dumps(rt.sz, args).Success? && Dumps(rt.sz, kwargs).Success?
    ensures ProxyCall(rt, pool, p, attr, args, kwargs) == (Failure(CallFailed(Transport(MissingType(0)))), pool)
  {
    NotFoundUnreadable(rt, pool, p.id, attr, Dumps(rt.sz, args).value, Dumps(rt.sz, kwargs).value);
  }

  /** With the not-found error sent in chunks, the client raises with the
      server's message, as it does for every other error of that endpoint. */
  lemma NotFoundReported<K(!new), Inst, Val>(rt: Runtime<K, Inst, Val>, pool: map<K, Inst>, id: K, attr: string, args: string, kwargs: string)
    requires Lossless(rt.json) && Readable(rt.keys)
    requires id !in pool
    ensures var request := CallRequest(rt.keys.show(id), attr, args, kwargs);
      CallExchange(rt, pool, request, true)
      == (Failure(ProxyError(ProxyErrorPrefix + NotFoundMessage(rt.keys.show(id)))), pool)
  {
    var request := CallRequest(rt.keys.show(id), attr, args, kwargs);
    RequestDelivered(rt.json.dumps(request));
    assert CallHandlerCorrected(rt, pool, request) == Outcome(Large(NotFound(rt, id)), pool);
    ReplyDelivered(rt.json, NotFound(rt, id));
  }

  /** The names `__getattribute__` reads from the local instance. */
  const LocalNames: set<string> := {"_proxy_call", "_has_attr", "id", "ip", "port", "__class__"}

  /** What `__getattribute__` decides from the capability reply. */
  datatype Decision =
    | LocalRead    // object.__getattribute__(self, name)
    | Forward      // partial(self._proxy_call, name)
    | Fetch        // self._proxy_call("__getattribute__", name)
    | Nothing      // falls off the end: None
    | Unreadable   // RemoteAttrInfo.construct(**reply, attr=name) or a field read raised

  /** `__getattribute__(name)` given the reply `_has_attr(name)` obtained, which
      is only asked for for a name that is not local. `construct` does not
      validate: a reply that is not a dict or already has an "attr" field
      raises TypeError, and a missing field raises when read. */
  function Decide(name: string, reply: Option<Json>): (d: Decision)
    ensures d == LocalRead <==> name in LocalNames
  {
    if name in LocalNames then LocalRead
    else match reply
      case Some(Object(fields)) =>
        if "attr" in fields || "exists" !in fields then Unreadable
        else if !Truthy(fields["exists"]) then Nothing
        else if "is_callable" !in fields then Unreadable
        else if Truthy(fields["is_callable"]) then Forward
        else Fetch
      case _ => Unreadable
  }

  /** The capability reply decides the access: exists and callable forwards,
      exists alone fetches the value, and no such attribute gives None. */
  lemma DecideOnCapability(name: string, present: bool, isCallable: bool)
    requires name !in LocalNames
    ensures Decide(name, Some(CapabilityReply(present, isCallable))) ==
      if !present then Nothing else if isCallable then Forward else Fetch
  {
  }

  /** `run` is not a local name: the class's own `run` (which does nothing) is
      never what an access finds. */
  lemma RunIsRemote(reply: Option<Json>)
    ensures Decide("run", reply) != LocalRead
  {
  }

  /** The reply `_has_attr(name)` obtains: one message to the has_attr handler
      and one back. */
  function CapabilityOf<K, Inst, Val>(rt: Runtime<K, Inst, Val>, pool: map<K, Inst>, p: RemoteAlgorithm<K>, name: string): Option<Json>
  {
    var sent := [Message(rt.json.dumps(AttrRequest(rt.keys.show(p.id), name)))];
    var out := HasAttrSession(rt, pool, ReceivedJson(rt.json, sent));
    ReceivedJson(rt.json, Emitted(rt.json, out.reply))
  }

  /** Requests an attribute access sends to the server. */
  datatype Request = HasAttrQuery(attr: string) | CallQuery(attr: string)

  /** What an attribute access of a proxy instance yields. */
  datatype Attribute<Val> =
    | LocalAttribute(name: string)
    | ForwardingCallable(name: string)  // applied to (args, kwargs) it is ProxyCall(name, args, kwargs)
    | RemoteValue(value: Val)
    | NoneValue
    | AccessRaised(fault: ProxyFault)

  /** An access: what it yields, the pool after it, and the requests it sent
      to the server, in order. */
  datatype Accessed<K, Inst, Val> = Accessed(value: Attribute<Val>, pool: map<K, Inst>, sent: seq<Request>)

  /** `proxy.name`, with the server's pool before and after. No instance is
      added or removed, and with a lossless JSON layer the pool is left as it
      was (the only call it makes is to `__getattribute__`). */
  function Access<K, Inst, Val>(rt: Runtime<K, Inst, Val>, pool: map<K, Inst>, py: Python<Val>, p: RemoteAlgorithm<K>, name: string): (r: Accessed<K, Inst, Val>)
    ensures r.pool.Keys == pool.Keys
    ensures Lossless(rt.json) ==> r.pool == pool
  {
    var asked := [HasAttrQuery(name)];
    match Decide(name, if name in LocalNames then None else CapabilityOf(rt, pool, p, name))
    case LocalRead => Accessed(LocalAttribute(name), pool, [])
    case Forward => Accessed(ForwardingCallable(name), pool, asked)
    case Nothing => Accessed(NoneValue, pool, asked)
    case Unreadable => Accessed(AccessRaised(NoCapability), pool, asked)
    case Fetch =>
      var (r, after) := ProxyCall(rt, pool, p, "__getattribute__", py.tuple([py.str(name)]), py.dict(map[]));
      var called := if r.Failure? && r.error.ArgumentsNotSent? then [] else [CallQuery("__getattribute__")];
      Accessed(if r.Success? then RemoteValue(r.value) else AccessRaised(r.error), after, asked + called)
  }

  /** A local name is read with no request; every other name, dunders
      included, asks exactly one capability query, before anything else, and
      any request after it is the call that fetches the value. */
  lemma OneCapabilityQuery<K, Inst, Val>(rt: Runtime<K, Inst, Val>, pool: map<K, Inst>, py: Python<Val>, p: RemoteAlgorithm<K>, name: string)
    ensures var q := Access(rt, pool, py, p, name).sent;
      && (name in LocalNames <==> q == [])
      && (name !in LocalNames ==>
            && q[0] == HasAttrQuery(name)
            && (forall i :: 1 <= i < |q| ==> q[i] == CallQuery("__getattribute__"))
            && |set i | 0 <= i < |q| && q[i].HasAttrQuery?| == 1)
  {
    AccessRequests(rt, pool, py, p, name);
    if name !in LocalNames {
      QueryFirst(Access(rt, pool, py, p, name).sent, name);
    }
  }

  /** The requests of an access: none for a local name; otherwise the
      capability query, and the fetching call when it was made. */
  lemma AccessRequests<K, Inst, Val>(rt: Runtime<K, Inst, Val>, pool: map<K, Inst>, py: Python<Val>, p: RemoteAlgorithm<K>, name: string)
    ensures var q := Access(rt, pool, py, p, name).sent;
      && (name in LocalNames ==> q == [])
      && (name !in LocalNames ==> q == [HasAttrQuery(name)] || q == [HasAttrQuery(name), CallQuery("__getattribute__")])
  {
    if name !in LocalNames && Decide(name, CapabilityOf(rt, pool, p, name)) == Fetch {
      var (r, _) := ProxyCall(rt, pool, p, "__getattribute__", py.tuple([py.str(name)]), py.dict(map[]));
      assert Access(rt, pool, py, p, name).sent == [HasAttrQuery(name)] + (if r.Failure? && r.error.ArgumentsNotSent? then [] else [CallQuery("__getattribute__")]);
    }
  }

  /** In a request list of either shape, the capability query comes first and
      is the only one. */
  lemma QueryFirst(q: seq<Request>, name: string)
    requires q == [HasAttrQuery(name)] || q == [HasAttrQuery(name), CallQuery("__getattribute__")]
    ensures q[0] == HasAttrQuery(name)
    ensures forall i :: 1 <= i < |q| ==> q[i] == CallQuery("__getattribute__")
    ensures |set i | 0 <= i < |q| && q[i].HasAttrQuery?| == 1
  {
    assert (set i | 0 <= i < |q| && q[i].HasAttrQuery?) == {0};
  }

  /** For a pooled instance the capability reply is the handler's probe of the
      remote instance. */
  lemma CapabilityDelivered<K(!new), Inst, Val>(rt: Runtime<K, Inst, Val>, pool: map<K, Inst>, p: RemoteAlgorithm<K>, name: string)
    requires Lossless(rt.json) && Readable(rt.keys) && p.id in pool
    ensures var found := rt.getAttr(pool[p.id], name);
      CapabilityOf(rt, pool, p, name) == Some(CapabilityReply(found.Some?, found.Some? && rt.isCallable(found.value)))
  {
    var request := AttrRequest(rt.keys.show(p.id), name);
    assert ReceivedJson(rt.json, [Message(rt.json.dumps(request))]) == Some(request);
  }

  /** Attribute access agrees with the remote instance: an attribute it lacks
      reads as None, a callable one as a forwarding callable, both after the
      capability query alone, and any other as the value the server's
      `__getattribute__` returns. */
  lemma AccessAgreesWithRemote<K(!new), Inst, Val>(rt: Runtime<K, Inst, Val>, pool: map<K, Inst>, py: Python<Val>, p: RemoteAlgorithm<K>, name: string)
    requires Lossless(rt.json) && Readable(rt.keys) && p.id in pool && name !in LocalNames
    ensures var found := rt.getAttr(pool[p.id], name);
      && (found.None? ==> Access(rt, pool, py, p, name) == Accessed(NoneValue, pool, [HasAttrQuery(name)]))
      && (found.Some? && rt.isCallable(found.value) ==>
            Access(rt, pool, py, p, name) == Accessed(ForwardingCallable(name), pool, [HasAttrQuery(name)]))
      && (found.Some? && !rt.isCallable(found.value) ==>
            var (r, _) := ProxyCall(rt, pool, p, "__getattribute__", py.tuple([py.str(name)]), py.dict(map[]));
            Access(rt, pool, py, p, name).value == if r.Success? then RemoteValue(r.value) else AccessRaised(r.error))
  {
    CapabilityDelivered(rt, pool, p, name);
    var found := rt.getAttr(pool[p.id], name);
    DecideOnCapability(name, found.Some?, found.Some? && rt.isCallable(found.value));
  }

  /** For an instance the pool no longer holds, the has_attr handler's error
      reply has no "exists" field, so every non-local access raises. */
  lemma AccessAfterDelete<K(!new), Inst, Val>(rt: Runtime<K, Inst, Val>, pool: map<K, Inst>, py: Python<Val>, p: RemoteAlgorithm<K>, name: string)
    requires Lossless(rt.json) && Readable(rt.keys) && p.id !in pool && name !in LocalNames
    ensures Access(rt, pool, py, p, name) == Accessed(AccessRaised(NoCapability), pool, [HasAttrQuery(name)])
  {
    var request := AttrRequest(rt.keys.show(p.id), name);
    assert ReceivedJson(rt.json, [Message(rt.json.dumps(request))]) == Some(request);
    assert CapabilityOf(rt, pool, p, name) == Some(NotFound(rt, p.id));
    assert "exists" !in NotFound(rt, p.id).fields;
  }

  /** `__repr__` and `__str__`, which are the same: the class name around the
      remote `__repr__` result. Like every call but `run`, it leaves the pool
      as it was when the JSON layer is lossless. */
  function Representation<K, Inst, Val>(rt: Runtime<K, Inst, Val>, pool: map<K, Inst>, py: Python<Val>, p: RemoteAlgorithm<K>): (r: (Result<string, ProxyFault>, map<K, Inst>))
    ensures r.1.Keys == pool.Keys
    ensures Lossless(rt.json) ==> r.1 == pool
  {
    var (inner, after) := ProxyCall(rt, pool, p, "__repr__", py.tuple([]), py.dict(map[]));
    match inner
    case Success(v) => (Success(p.cls.name + "(" + py.format(v) + ")"), after)
    case Failure(e) => (Failure(e), after)
  }

  /** The representation is `ClassName(inner)` for the remote result, and the
      failure of the remote call otherwise. */
  lemma RepresentationForm<K, Inst, Val>(rt: Runtime<K, Inst, Val>, pool: map<K, Inst>, py: Python<Val>, p: RemoteAlgorithm<K>)
    ensures var (inner, _) := ProxyCall(rt, pool, p, "__repr__", py.tuple([]), py.dict(map[]));
      var (r, _) := Representation(rt, pool, py, p);
      && (r.Success? <==> inner.Success?)
      && (r.Success? ==>
            && r.value[..|p.cls.name| + 1] == p.cls.name + "("
            && r.value[|r.value| - 1] == ')'
            && r.value[|p.cls.name| + 1..|r.value| - 1] == py.format(inner.value))
  {
    var (inner, _) := ProxyCall(rt, pool, p, "__repr__", py.tuple([]), py.dict(map[]));
    if inner.Success? {
      Wrapped(p.cls.name, py.format(inner.value));
    }
  }

  /** `f"{n}({x})"` reads `n(`, then `x`, then `)`. */
  lemma Wrapped(n: string, x: string)
    ensures var s := n + "(" + x + ")";
      && s[..|n| + 1] == n + "(" && s[|s| - 1] == ')' && s[|n| + 1..|s| - 1] == x
  {
    var s := n + "(" + x + ")";
    assert s == (n + "(") + x + ")";
  }

  /** The representation of a pooled instance is the class name around the
      formatted `repr` of the remote instance itself. */
  lemma RepresentationOfPooled<K(!new), Inst, Val(!new)>(rt: Runtime<K, Inst, Val>, pool: map<K, Inst>, py: Python<Val>, p: RemoteAlgorithm<K>, f: Val, v: Val)
    requires Lossless(rt.json) && Readable(rt.keys) && Faithful(rt.sz.pickle) && p.id in pool
    requires rt.getAttr(pool[p.id], "__repr__") == Some(f) && rt.isCallable(f)
    requires Dumps(rt.sz, py.tuple([])).Success? && Dumps(rt.sz, py.dict(map[])).Success?
    requires rt.dynamicCall(pool[p.id], "__repr__", py.tuple([]), py.dict(map[])) == Success(v)
    requires Dumps(rt.sz, v).Success?
    ensures Representation(rt, pool, py, p) == (Success(p.cls.name + "(" + py.format(v) + ")"), pool)
  {
    ProxyCallInProcess(rt, pool, p, "__repr__", py.tuple([]), py.dict(map[]), f, v);
  }

  /** As written, `repr` of a proxy whose instance was deleted fails in the
      client's transport. */
  lemma RepresentationAfterDelete<K(!new), Inst, Val>(rt: Runtime<K, Inst, Val>, pool: map<K, Inst>, py: Python<Val>, p: RemoteAlgorithm<K>)
    requires Lossless(rt.json) && Readable(rt.keys) && p.id !in pool
    requires Dumps(rt.sz, py.tuple([])).Success? && Dumps(rt.sz, py.dict(map[])).Success?
    ensures Representation(rt, pool, py, p) == (Failure(CallFailed(Transport(MissingType(0)))), pool)
  {
    ProxyCallAfterDelete(rt, pool, p, "__repr__", py.tuple([]), py.dict(map[]));
  }

  /** The address `__del__` sends its delete request to, up to the id. */
  function DeleteRoute(c: ProxyClass): string
  {
    "http://" + HostOr(Some(c.ip)) + ":" + IntToString(PortOr(Some(c.port))) + "/algorithm/"
  }

  /** `f"http://{self.ip or '0.0.0.0'}:{self.port or 8000}/algorithm/{self.id}"` */
  function DeleteUrl<K>(keys: KeyText<K>, p: RemoteAlgorithm<K>): string
  {
    DeleteRoute(p.cls) + keys.show(p.id)
  }

  /** The delete goes to the host and port of the websocket routes, and the
      path segment the server's `{raw_id}` matches is the text of the id. */
  lemma DeleteUrlTarget<K>(keys: KeyText<K>, p: RemoteAlgorithm<K>)
    ensures var url := DeleteUrl(keys, p);
      && DeleteRoute(p.cls) == "http" + BuildRoute(Some(p.cls.ip), Some(p.cls.port))[2..] + "/algorithm/"
      && url[|DeleteRoute(p.cls)|..] == keys.show(p.id)
  {
    var host := HostOr(Some(p.cls.ip)) + ":" + IntToString(PortOr(Some(p.cls.port)));
    assert BuildRoute(Some(p.cls.ip), Some(p.cls.port)) == "ws" + ("://" + host);
    assert DeleteRoute(p.cls) == "http" + ("://" + host) + "/algorithm/";
  }

  /** `__del__`: the HTTP delete request, when the server can be reached, for
      the id in the path of the URL; whatever happens, nothing is raised (the
      result has no failure). It never adds or changes an entry. */
  function Del<K, Inst, Val>(rt: Runtime<K, Inst, Val>, pool: map<K, Inst>, p: RemoteAlgorithm<K>, reachable: bool): (after: map<K, Inst>)
    ensures forall k :: k in after ==> k in pool && after[k] == pool[k]
    ensures !reachable ==> after == pool
  {
    if reachable then
      var url := DeleteUrl(rt.keys, p);
      DeleteHandler(rt, pool, url[|DeleteRoute(p.cls)|..]).pool
    else pool
  }

  /** A delivered delete removes exactly the instance's entry; an undelivered
      one changes nothing. */
  lemma DelRemoves<K(!new), Inst, Val>(rt: Runtime<K, Inst, Val>, pool: map<K, Inst>, p: RemoteAlgorithm<K>, reachable: bool)
    requires Readable(rt.keys)
    ensures var after := Del(rt, pool, p, reachable);
      && (reachable ==> after.Keys == pool.Keys - {p.id} && forall k :: k in after ==> after[k] == pool[k])
      && (!reachable ==> after == pool)
  {
    DeleteUrlTarget(rt.keys, p);
  }

  /** `__new__(cls, *args, **kwargs)`: the instantiate exchange, then the id of
      the reply; `newId` is the key the server draws. The proxy is of the
      class it was created from, and the pool changes at most at the new id. */
  function New<K, Inst, Val>(rt: Runtime<K, Inst, Val>, pool: map<K, Inst>, c: ProxyClass, args: Val, kwargs: Val, newId: K): (r: (Result<RemoteAlgorithm<K>, ProxyFault>, map<K, Inst>))
    ensures r.0.Success? ==> r.0.value.cls == c
    ensures r.1.Keys <= pool.Keys + {newId}
    ensures forall k :: k in pool && k != newId ==> k in r.1 && r.1[k] == pool[k]
  {
    match (Dumps(rt.sz, args), Dumps(rt.sz, kwargs))
    case (Failure(e), _) => (Failure(ArgumentsNotSent(e)), pool)
    case (_, Failure(e)) => (Failure(ArgumentsNotSent(e)), pool)
    case (Success(a), Success(k)) =>
      var sent := [Message(rt.json.dumps(InstantiateRequest(DescriptorJson(c.dto), a, k)))];
      var out := InstantiateSession(rt, pool, ReceivedJson(rt.json, sent), newId);
      match ReceivedJson(rt.json, Emitted(rt.json, out.reply))
      case None => (Failure(NoInstance), out.pool)
      case Some(response) =>
        match TextAt(response, "id")
        case None => (Failure(NoInstance), out.pool)
        case Some(raw) =>
          match rt.keys.parse(raw)
          case None => (Failure(NoInstance), out.pool)
          case Some(id) => (Success(RemoteAlgorithm(c, id)), out.pool)
  }

  /** Creating a proxy instance creates the remote one from the class the
      descriptor names: the pool gains it under the new id, and the proxy
      holds that id. */
  lemma NewRegisters<K(!new), Inst, Val(!new)>(rt: Runtime<K, Inst, Val>, pool: map<K, Inst>, c: ProxyClass, args: Val, kwargs: Val, newId: K, cls: Val, inst: Inst)
    requires Lossless(rt.json) && Readable(rt.keys) && Faithful(rt.sz.pickle)
    requires Dumps(rt.sz, args).Success? && Dumps(rt.sz, kwargs).Success?
    requires rt.importClass(c.dto.modulePath, c.dto.name) == Some(cls)
    requires rt.construct(cls, args, kwargs) == Success(inst)
    ensures New(rt, pool, c, args, kwargs, newId) == (Success(RemoteAlgorithm(c, newId)), pool[newId := inst])
  {
    var a := Dumps(rt.sz, args).value;
    var k := Dumps(rt.sz, kwargs).value;
    var request := InstantiateRequest(DescriptorJson(c.dto), a, k);
    assert ReceivedJson(rt.json, [Message(rt.json.dumps(request))]) == Some(request);
    LoadsDumps(rt.sz, args, false);
    LoadsDumps(rt.sz, kwargs, false);
    InstantiateConstructs(rt, pool, c.dto, a, k, newId, cls, args, kwargs, inst);
    var reply := InstantiatedReply(rt.keys.show(newId));
    assert ReceivedJson(rt.json, [Message(rt.json.dumps(reply))]) == Some(reply);
    assert TextAt(reply, "id") == Some(rt.keys.show(newId));
  }

  /** The result of leaving a `with` block. */
  datatype ExitResult<Val> =
    | Deleted              // the delete request was made; `None` is returned
    | RemoteResult(value: Val) // a remote `__del__` ran and its result is returned
    | NotCallable          // TypeError: the access gave None (or a value), which is called
    | ExitRaised(fault: ProxyFault)

  /** `__exit__` as written: `self.__del__()` is an attribute access, so it
      asks the server about `__del__` and calls whatever comes back. It does
      not reach the proxy's own `__del__`: no delete request is made, and no
      instance leaves the pool (it stays pooled until the proxy is finalized,
      when Python calls the class's `__del__` directly). */
  function ExitAsWritten<K, Inst, Val>(rt: Runtime<K, Inst, Val>, pool: map<K, Inst>, py: Python<Val>, p: RemoteAlgorithm<K>): (r: (ExitResult<Val>, map<K, Inst>))
    ensures r.0 != Deleted
    ensures r.1.Keys == pool.Keys
    ensures Lossless(rt.json) ==> r.1 == pool
  {
    var access := Access(rt, pool, py, p, "__del__");
    match access.value
    case ForwardingCallable(_) =>
      var (result, after) := ProxyCall(rt, access.pool, p, "__del__", py.tuple([]), py.dict(map[]));
      (if result.Success? then RemoteResult(result.value) else ExitRaised(result.error), after)
    case AccessRaised(e) => (ExitRaised(e), access.pool)
    case _ => (NotCallable, access.pool)
  }

  /** As written, for an instance without a `__del__` of its own (the common
      case, as `object` has none) leaving the block raises TypeError and the
      pool is unchanged. */
  lemma ExitNotCallable<K(!new), Inst, Val>(rt: Runtime<K, Inst, Val>, pool: map<K, Inst>, py: Python<Val>, p: RemoteAlgorithm<K>)
    requires Lossless(rt.json) && Readable(rt.keys) && p.id in pool
    requires rt.getAttr(pool[p.id], "__del__").None?
    ensures ExitAsWritten(rt, pool, py, p) == (NotCallable, pool)
  {
    AccessAgreesWithRemote(rt, pool, py, p, "__del__");
  }

  /** `__exit__` as evidently intended: the proxy's own `__del__`. It makes
      the delete request and never raises; it only ever removes entries, and
      an unreachable server keeps them all. */
  function Exit<K, Inst, Val>(rt: Runtime<K, Inst, Val>, pool: map<K, Inst>, p: RemoteAlgorithm<K>, reachable: bool): (r: (ExitResult<Val>, map<K, Inst>))
    ensures r.0 == Deleted
    ensures forall k :: k in r.1 ==> k in pool && r.1[k] == pool[k]
    ensures !reachable ==> r.1 == pool
  {
    (Deleted, Del(rt, pool, p, reachable))
  }

  /** Leaving the block with a reachable server: the corrected exit removes
      the pooled instance, the exit as written keeps it. */
  lemma ExitDeletes<K(!new), Inst, Val>(rt: Runtime<K, Inst, Val>, pool: map<K, Inst>, py: Python<Val>, p: RemoteAlgorithm<K>)
    requires Readable(rt.keys) && p.id in pool
    ensures var (_, after) := Exit<K, Inst, Val>(rt, pool, p, true);
      p.id !in after && after.Keys == pool.Keys - {p.id}
    ensures p.id in ExitAsWritten(rt, pool, py, p).1
  {
    DelRemoves(rt, pool, p, true);
  }
}
