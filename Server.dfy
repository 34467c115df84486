/**
 * The algorithm server of autogoal_remote/distributed/server.py: a pool of live
 * algorithm instances keyed by id, and the handlers that create, query, call
 * and delete them.
 *
 * Each websocket handler is a method of `AlgorithmServer` written step by step
 * over the connection and the pool, and proved to agree with a pure function
 * of the request and the old pool. The Python runtime the handlers call into
 * (attribute lookup, invocation, the sandboxed worker, class import,
 * construction) is a `Runtime` of opaque functions.
 */
module Server {
  import opened Wrappers
  import opened Chunking
  import opened Codec
  import opened Protocol

  /** `remote_call_timeout` and `remote_call_memory_limit`, in the units
      `Sec` and `Gb` of autogoal.utils. */
  datatype Limits = Limits(seconds: nat, gigabytes: nat)

  /** `20 * Sec` and `4 * Gb` */
  const CallLimits: Limits := Limits(20, 4)

  /** The chunk size of the reply of the call handler. */
  const ReplyChunkSize: int := 500

  /** The parts of the Python runtime the handlers call into. Failures carry
      `str(e)` of the exception raised. */
  datatype Runtime<!K, !Inst, !Val> = Runtime(
    json: JsonText,
    keys: KeyText<K>,
    sz: Serializers<Val>,
    // getattr(inst, name); None where it raises
    getAttr: (Inst, string) -> Option<Val>,
    // hasattr(value, "__call__")
    isCallable: Val -> bool,
    // dynamic_call(inst, name, *args, **kwargs)
    dynamicCall: (Inst, string, Val, Val) -> Result<Val, string>,
    // RestrictedWorkerWithState(dynamic_call, timeout, memory)(inst, name, *args, **kwargs)
    bounded: (Limits, Inst, string, Val, Val) -> Result<Val, string>,
    // `result, ninstance = result`, where None stands for a `ninstance` that is None
    unpack: Val -> Result<(Val, Option<Inst>), string>,
    // dynamic_import(module, name); None where it raises
    importClass: (string, string) -> Option<Val>,
    // cls(*args, **kwargs)
    construct: (Val, Val, Val) -> Result<Inst, string>)

  /** Why a handler raised before replying; the connection is then closed with
      no reply. */
  datatype Fault =
    | TransportFault(cause: ReceiveError)  // receive_large_message raised
    | NoRequest                            // receive_json: nothing arrived, or it was not JSON
    | MalformedRequest                     // json.loads raised, or a field is missing or not a str
    | MalformedId                          // uuid.UUID raised
    | MissingAttribute(attr: string)       // getattr raised
    | UnloadableArgument(error: LoadError) // loads raised on the arguments
    | UnknownClass                         // dynamic_import raised
    | ConstructionFailed(message: string)  // the constructor raised

  /** What a handler puts on the connection. */
  datatype Reply =
    | Silent(fault: Fault)  // raised: nothing is sent
    | Single(message: Json) // send_json
    | Large(message: Json)  // send_large_message with chunks of 500

  /** A handler's reply and the pool it leaves behind. */
  datatype Outcome<K, Inst> = Outcome(reply: Reply, pool: map<K, Inst>)

  /** The frames a reply puts on the connection. */
  function Emitted(j: JsonText, r: Reply): (fs: seq<Frame>)
    ensures r.Silent? ==> fs == []
    ensures r.Single? ==> fs == [Message(j.dumps(r.message))]
    ensures r.Large? ==> fs == Encoded(j.dumps(r.message), ReplyChunkSize)
  {
    match r
    case Silent(_) => []
    case Single(m) => [Message(j.dumps(m))]
    case Large(m) => Encoded(j.dumps(m), ReplyChunkSize)
  }

  /** How the call handler obtains the result for an attribute. */
  datatype Invocation =
    | Sandboxed     // the bounded worker, which also returns a replacement instance
    | InProcess     // dynamic_call in the server process
    | NoInvocation  // the attribute value itself

  /** The worker choice of the websocket call handler: only a callable named
      `run` goes to the bounded worker. */
  function CallInvocation(isCallable: bool, attr: string): (w: Invocation)
    ensures w == Sandboxed <==> isCallable && attr == "run"
    ensures w == InProcess <==> isCallable && attr != "run"
    ensures w == NoInvocation <==> !isCallable
  {
    if !isCallable then NoInvocation else if attr == "run" then Sandboxed else InProcess
  }

  /** The worker choice of the HTTP call handler: every callable goes to the
      bounded worker. */
  function HttpInvocation(isCallable: bool): (w: Invocation)
    ensures w == Sandboxed <==> isCallable
    ensures w == NoInvocation <==> !isCallable
  {
    if isCallable then Sandboxed else NoInvocation
  }

  /** The two handlers choose alike exactly for non-callables and for `run`. */
  lemma InvocationsAgree(isCallable: bool, attr: string)
    ensures CallInvocation(isCallable, attr) == HttpInvocation(isCallable) <==> !isCallable || attr == "run"
  {
  }

  /** `loads(request[key])` */
  function Argument<K, Inst, Val>(rt: Runtime<K, Inst, Val>, request: Json, key: string): (r: Result<Val, Fault>)
    ensures TextAt(request, key).None? ==> r == Failure(MalformedRequest)
    ensures TextAt(request, key).Some? ==>
      match Loads(rt.sz, TextAt(request, key).value)
      case Success(v) => r == Success(v)
      case Failure(e) => r == Failure(UnloadableArgument(e))
  {
    match TextAt(request, key)
    case None => Failure(MalformedRequest)
    case Some(text) =>
      match Loads(rt.sz, text)
      case Success(v) => Success(v)
      case Failure(e) => Failure(UnloadableArgument(e))
  }

  /** The requested instance: `uuid.UUID(request["instance_id"])`. */
  function RequestedKey<K, Inst, Val>(rt: Runtime<K, Inst, Val>, request: Json): Option<K>
  {
    match TextAt(request, "instance_id")
    case None => None
    case Some(raw) => rt.keys.parse(raw)
  }

  /** The reply to a request naming an id the pool does not hold. */
  function NotFound<K, Inst, Val>(rt: Runtime<K, Inst, Val>, id: K): Json
  {
    ErrorReply(NotFoundMessage(rt.keys.show(id)))
  }

  /** `result_data` once the result is known: `dumps` can still fail, inside the
      try, and then the error is the reply. */
  function Finish<K, Inst, Val>(rt: Runtime<K, Inst, Val>, pool: map<K, Inst>, result: Result<Val, string>): (out: Outcome<K, Inst>)
    ensures out.pool == pool && out.reply.Large?
    ensures result.Failure? ==> out.reply == Large(ErrorReply(result.error))
    ensures result.Success? && Dumps(rt.sz, result.value).Failure? ==> out.reply == Large(ErrorReply(Dumps(rt.sz, result.value).error))
    ensures result.Success? && Dumps(rt.sz, result.value).Success? ==> out.reply == Large(ResultReply(Dumps(rt.sz, result.value).value))
  {
    match result
    case Failure(e) => Outcome(Large(ErrorReply(e)), pool)
    case Success(v) =>
      match Dumps(rt.sz, v)
      case Success(data) => Outcome(Large(ResultReply(data)), pool)
      case Failure(e) => Outcome(Large(ErrorReply(e)), pool)
  }

  /** The try block of the call handler (server.py lines 188-205). */
  function Attempt<K, Inst, Val>(rt: Runtime<K, Inst, Val>, pool: map<K, Inst>, id: K, inst: Inst, attr: string, value: Val, args: Val, kwargs: Val): Outcome<K, Inst>
  {
    match CallInvocation(rt.isCallable(value), attr)
    case NoInvocation => Finish(rt, pool, Success(value))
    case InProcess => Finish(rt, pool, rt.dynamicCall(inst, attr, args, kwargs))
    case Sandboxed =>
      match rt.bounded(CallLimits, inst, attr, args, kwargs)
      case Failure(e) => Outcome(Large(ErrorReply(e)), pool)
      case Success(pair) =>
        match rt.unpack(pair)
        case Failure(e) => Outcome(Large(ErrorReply(e)), pool)
        case Success((result, replacement)) =>
          Finish(rt, if replacement.Some? then pool[id := replacement.value] else pool, Success(result))
  }

  /** The websocket call handler once the request is decoded. It never adds or
      removes an instance, writes the pool only for a request naming `run`, and
      sends a plain frame exactly for an id the pool does not hold. */
  function CallHandler<K, Inst, Val>(rt: Runtime<K, Inst, Val>, pool: map<K, Inst>, request: Json): (out: Outcome<K, Inst>)
    ensures out.pool.Keys == pool.Keys
    ensures TextAt(request, "attr") != Some("run") ==> out.pool == pool
    ensures out.reply.Single? <==> RequestedKey(rt, request).Some? && RequestedKey(rt, request).value !in pool
  {
    match TextAt(request, "instance_id")
    case None => Outcome(Silent(MalformedRequest), pool)
    case Some(raw) =>
      match rt.keys.parse(raw)
      case None => Outcome(Silent(MalformedId), pool)
      case Some(id) =>
        if id !in pool then Outcome(Single(NotFound(rt, id)), pool)
        else
          match TextAt(request, "attr")
          case None => Outcome(Silent(MalformedRequest), pool)
          case Some(attr) =>
            match rt.getAttr(pool[id], attr)
            case None => Outcome(Silent(MissingAttribute(attr)), pool)
            case Some(value) =>
              match Argument(rt, request, "args")
              case Failure(f) => Outcome(Silent(f), pool)
              case Success(args) =>
                match Argument(rt, request, "kwargs")
                case Failure(f) => Outcome(Silent(f), pool)
                case Success(kwargs) => Attempt(rt, pool, id, pool[id], attr, value, args, kwargs)
  }

  /** The whole websocket call handler, from the outcome of reading the request. */
  function CallSession<K, Inst, Val>(rt: Runtime<K, Inst, Val>, pool: map<K, Inst>, received: Result<string, ReceiveError>): (out: Outcome<K, Inst>)
    ensures out.pool.Keys == pool.Keys
  {
    match received
    case Failure(e) => Outcome(Silent(TransportFault(e)), pool)
    case Success(text) =>
      match rt.json.loads(text)
      case None => Outcome(Silent(MalformedRequest), pool)
      case Some(request) => CallHandler(rt, pool, request)
  }

  /** An id the pool does not hold gets the not-found error, sent directly with
      `send_json`, and the pool is untouched. */
  lemma CallNotFound<K, Inst, Val>(rt: Runtime<K, Inst, Val>, pool: map<K, Inst>, request: Json)
    requires RequestedKey(rt, request).Some? && RequestedKey(rt, request).value !in pool
    ensures CallHandler(rt, pool, request) == Outcome(Single(NotFound(rt, RequestedKey(rt, request).value)), pool)
  {
  }

  /** The only pool write of the call handler: the requested key, and only after
      a bounded `run` of a callable returned a replacement instance. Every other
      entry, and the set of keys, stay as they were. */
  lemma CallWritesOnlyAfterRun<K, Inst, Val>(rt: Runtime<K, Inst, Val>, pool: map<K, Inst>, request: Json)
    ensures var out := CallHandler(rt, pool, request);
      && out.pool.Keys == pool.Keys
      && (out.pool != pool ==>
            && RequestedKey(rt, request).Some?
            && var id := RequestedKey(rt, request).value;
            && id in pool
            && TextAt(request, "attr") == Some("run")
            && rt.getAttr(pool[id], "run").Some?
            && rt.isCallable(rt.getAttr(pool[id], "run").value)
            && out.pool == pool[id := out.pool[id]]
            && exists args, kwargs, result ::
                 && rt.bounded(CallLimits, pool[id], "run", args, kwargs).Success?
                 && rt.unpack(rt.bounded(CallLimits, pool[id], "run", args, kwargs).value) == Success((result, Some(out.pool[id]))))
  {
    var out := CallHandler(rt, pool, request);
    if out.pool != pool {
      var id := RequestedKey(rt, request).value;
      var attr := TextAt(request, "attr").value;
      var value := rt.getAttr(pool[id], attr).value;
      var args := Argument(rt, request, "args").value;
      var kwargs := Argument(rt, request, "kwargs").value;
      assert out == Attempt(rt, pool, id, pool[id], attr, value, args, kwargs);
      assert CallInvocation(rt.isCallable(value), attr) == Sandboxed;
      var pair := rt.bounded(CallLimits, pool[id], attr, args, kwargs).value;
      var (result, replacement) := rt.unpack(pair).value;
      assert replacement.Some? && out.pool == pool[id := replacement.value];
      assert rt.unpack(rt.bounded(CallLimits, pool[id], "run", args, kwargs).value) == Success((result, Some(out.pool[id])));
    }
  }

  /** A bounded `run` that returns a replacement stores it under the requested
      key, whatever the reply. */
  lemma CallRunReplaces<K, Inst, Val>(rt: Runtime<K, Inst, Val>, pool: map<K, Inst>, request: Json, args: Val, kwargs: Val, result: Val, replacement: Inst)
    requires RequestedKey(rt, request).Some? && RequestedKey(rt, request).value in pool
    requires TextAt(request, "attr") == Some("run")
    requires var inst := pool[RequestedKey(rt, request).value];
      && rt.getAttr(inst, "run").Some? && rt.isCallable(rt.getAttr(inst, "run").value)
      && Argument(rt, request, "args") == Success(args) && Argument(rt, request, "kwargs") == Success(kwargs)
      && rt.bounded(CallLimits, inst, "run", args, kwargs).Success?
      && rt.unpack(rt.bounded(CallLimits, inst, "run", args, kwargs).value) == Success((result, Some(replacement)))
    ensures var id := RequestedKey(rt, request).value;
      CallHandler(rt, pool, request) == Finish(rt, pool[id := replacement], Success(result))
  {
  }

  /** The attribute lookup and the argument decoding lie outside the try: a
      failure there closes the connection with no reply. */
  lemma CallFaultsOutsideTry<K, Inst, Val>(rt: Runtime<K, Inst, Val>, pool: map<K, Inst>, request: Json)
    requires RequestedKey(rt, request).Some? && RequestedKey(rt, request).value in pool
    requires TextAt(request, "attr").Some?
    ensures var inst := pool[RequestedKey(rt, request).value];
      var attr := TextAt(request, "attr").value;
      var out := CallHandler(rt, pool, request);
      && (rt.getAttr(inst, attr).None? ==> out == Outcome(Silent(MissingAttribute(attr)), pool))
      && (rt.getAttr(inst, attr).Some? && Argument(rt, request, "args").Failure? ==>
            out == Outcome(Silent(Argument(rt, request, "args").error), pool))
      && (rt.getAttr(inst, attr).Some? && Argument(rt, request, "args").Success? && Argument(rt, request, "kwargs").Failure? ==>
            out == Outcome(Silent(Argument(rt, request, "kwargs").error), pool))
  {
  }

  /** Everything raised inside the try (the invocation, the unpacking and
      `dumps`) becomes an `{"error": str(e)}` reply sent in chunks; there is no
      silent outcome once the arguments are decoded. */
  lemma CallCatchesInsideTry<K, Inst, Val>(rt: Runtime<K, Inst, Val>, pool: map<K, Inst>, request: Json)
    requires RequestedKey(rt, request).Some? && RequestedKey(rt, request).value in pool
    requires TextAt(request, "attr").Some?
    requires rt.getAttr(pool[RequestedKey(rt, request).value], TextAt(request, "attr").value).Some?
    requires Argument(rt, request, "args").Success? && Argument(rt, request, "kwargs").Success?
    ensures var inst := pool[RequestedKey(rt, request).value];
      var attr := TextAt(request, "attr").value;
      var value := rt.getAttr(inst, attr).value;
      var args := Argument(rt, request, "args").value;
      var kwargs := Argument(rt, request, "kwargs").value;
      var out := CallHandler(rt, pool, request);
      && out.reply.Large?
      && (CallInvocation(rt.isCallable(value), attr) == InProcess && rt.dynamicCall(inst, attr, args, kwargs).Failure? ==>
            out == Outcome(Large(ErrorReply(rt.dynamicCall(inst, attr, args, kwargs).error)), pool))
      && (CallInvocation(rt.isCallable(value), attr) == Sandboxed && rt.bounded(CallLimits, inst, attr, args, kwargs).Failure? ==>
            out == Outcome(Large(ErrorReply(rt.bounded(CallLimits, inst, attr, args, kwargs).error)), pool))
      && (CallInvocation(rt.isCallable(value), attr) == Sandboxed && rt.bounded(CallLimits, inst, attr, args, kwargs).Success?
          && rt.unpack(rt.bounded(CallLimits, inst, attr, args, kwargs).value).Failure? ==>
            out == Outcome(Large(ErrorReply(rt.unpack(rt.bounded(CallLimits, inst, attr, args, kwargs).value).error)), pool))
      && (CallInvocation(rt.isCallable(value), attr) == Sandboxed && rt.bounded(CallLimits, inst, attr, args, kwargs).Success?
          && rt.unpack(rt.bounded(CallLimits, inst, attr, args, kwargs).value).Success?
          && Dumps(rt.sz, rt.unpack(rt.bounded(CallLimits, inst, attr, args, kwargs).value).value.0).Failure? ==>
            out.reply == Large(ErrorReply(Dumps(rt.sz, rt.unpack(rt.bounded(CallLimits, inst, attr, args, kwargs).value).value.0).error)))
      && (CallInvocation(rt.isCallable(value), attr) == InProcess && rt.dynamicCall(inst, attr, args, kwargs).Success?
          && Dumps(rt.sz, rt.dynamicCall(inst, attr, args, kwargs).value).Failure? ==>
            out == Outcome(Large(ErrorReply(Dumps(rt.sz, rt.dynamicCall(inst, attr, args, kwargs).value).error)), pool))
      && (CallInvocation(rt.isCallable(value), attr) == NoInvocation && Dumps(rt.sz, value).Failure? ==>
            out == Outcome(Large(ErrorReply(Dumps(rt.sz, value).error)), pool))
  {
  }

  /** A non-callable attribute is returned as it is, without invocation. */
  lemma CallReturnsValue<K, Inst, Val>(rt: Runtime<K, Inst, Val>, pool: map<K, Inst>, request: Json)
    requires RequestedKey(rt, request).Some? && RequestedKey(rt, request).value in pool
    requires TextAt(request, "attr").Some?
    requires var value := rt.getAttr(pool[RequestedKey(rt, request).value], TextAt(request, "attr").value);
      value.Some? && !rt.isCallable(value.value)
    requires Argument(rt, request, "args").Success? && Argument(rt, request, "kwargs").Success?
    ensures var value := rt.getAttr(pool[RequestedKey(rt, request).value], TextAt(request, "attr").value).value;
      CallHandler(rt, pool, request) == Finish(rt, pool, Success(value))
  {
  }

  /** The call handler with the not-found error sent in chunks like every other
      reply of that endpoint, which is what its client reads. */
  function CallHandlerCorrected<K, Inst, Val>(rt: Runtime<K, Inst, Val>, pool: map<K, Inst>, request: Json): (out: Outcome<K, Inst>)
    ensures !out.reply.Single?
  {
    var written := CallHandler(rt, pool, request);
    match written.reply
    case Single(m) => Outcome(Large(m), written.pool)
    case _ => written
  }

  /** The correction only changes how the not-found error is sent. */
  lemma CorrectionOnlyForNotFound<K, Inst, Val>(rt: Runtime<K, Inst, Val>, pool: map<K, Inst>, request: Json)
    ensures CallHandlerCorrected(rt, pool, request).pool == CallHandler(rt, pool, request).pool
    ensures RequestedKey(rt, request).Some? && RequestedKey(rt, request).value in pool ==>
      CallHandlerCorrected(rt, pool, request) == CallHandler(rt, pool, request)
    ensures RequestedKey(rt, request).Some? && RequestedKey(rt, request).value !in pool ==>
      CallHandlerCorrected(rt, pool, request).reply == Large(NotFound(rt, RequestedKey(rt, request).value))
  {
  }

  /** The whole call handler with the correction, from the outcome of reading
      the request. */
  function CorrectedCallSession<K, Inst, Val>(rt: Runtime<K, Inst, Val>, pool: map<K, Inst>, received: Result<string, ReceiveError>): (out: Outcome<K, Inst>)
    ensures !out.reply.Single?
    ensures out.pool == CallSession(rt, pool, received).pool
  {
    match received
    case Failure(e) => Outcome(Silent(TransportFault(e)), pool)
    case Success(text) =>
      match rt.json.loads(text)
      case None => Outcome(Silent(MalformedRequest), pool)
      case Some(request) => CallHandlerCorrected(rt, pool, request)
  }

  /** The try block of the has_attr handlers: whether `getattr(inst,
      request["attr"])` succeeds (a missing or non-str name also fails inside
      the bare except), and whether the value is callable. */
  function Probe<K, Inst, Val>(rt: Runtime<K, Inst, Val>, inst: Inst, request: Json): (c: (bool, bool))
    ensures c.0 <==> TextAt(request, "attr").Some? && rt.getAttr(inst, TextAt(request, "attr").value).Some?
    ensures c.1 <==> c.0 && rt.isCallable(rt.getAttr(inst, TextAt(request, "attr").value).value)
    ensures c.1 ==> c.0
  {
    match TextAt(request, "attr")
    case None => (false, false)
    case Some(attr) =>
      match rt.getAttr(inst, attr)
      case None => (false, false)
      case Some(value) => (true, rt.isCallable(value))
  }

  /** The websocket has_attr handler once the request is decoded. It never
      touches the pool. */
  function HasAttrHandler<K, Inst, Val>(rt: Runtime<K, Inst, Val>, pool: map<K, Inst>, request: Json): (out: Outcome<K, Inst>)
    ensures out.pool == pool
    ensures RequestedKey(rt, request).None? ==> out.reply.Silent?
    ensures RequestedKey(rt, request).Some? && RequestedKey(rt, request).value !in pool ==>
      out.reply == Single(NotFound(rt, RequestedKey(rt, request).value))
    ensures RequestedKey(rt, request).Some? && RequestedKey(rt, request).value in pool ==>
      var c := Probe(rt, pool[RequestedKey(rt, request).value], request);
      out.reply == Single(CapabilityReply(c.0, c.1))
  {
    match TextAt(request, "instance_id")
    case None => Outcome(Silent(MalformedRequest), pool)
    case Some(raw) =>
      match rt.keys.parse(raw)
      case None => Outcome(Silent(MalformedId), pool)
      case Some(id) =>
        if id !in pool then Outcome(Single(NotFound(rt, id)), pool)
        else
          var c := Probe(rt, pool[id], request);
          Outcome(Single(CapabilityReply(c.0, c.1)), pool)
  }

  /** A capability reply never says callable without saying it exists. */
  lemma CapabilityConsistent<K, Inst, Val>(rt: Runtime<K, Inst, Val>, pool: map<K, Inst>, request: Json, present: bool, isCallable: bool)
    requires HasAttrHandler(rt, pool, request).reply == Single(CapabilityReply(present, isCallable))
    ensures isCallable ==> present
  {
    var id := RequestedKey(rt, request).value;
    ErrorIsNotCapability(NotFoundMessage(rt.keys.show(id)), present, isCallable);
    assert id in pool;
    var c := Probe(rt, pool[id], request);
    var m := CapabilityReply(present, isCallable);
    assert CapabilityReply(c.0, c.1) == m;
    assert m.fields["exists"] == Bool(present) && m.fields["is_callable"] == Bool(isCallable);
    assert CapabilityReply(c.0, c.1).fields["exists"] == Bool(c.0);
    assert CapabilityReply(c.0, c.1).fields["is_callable"] == Bool(c.1);
  }

  /** An error reply is never a capability reply: only the first has "error". */
  lemma ErrorIsNotCapability(message: string, present: bool, isCallable: bool)
    ensures ErrorReply(message) != CapabilityReply(present, isCallable)
  {
    assert "error" in ErrorReply(message).fields;
    assert "error" !in CapabilityReply(present, isCallable).fields;
  }

  /** The websocket instantiate handler once the request is decoded, with
      `newId` the `uuid4()` drawn for it: it raises with the pool untouched, or
      replies with the new id and stores the new instance under it. */
  function InstantiateHandler<K, Inst, Val>(rt: Runtime<K, Inst, Val>, pool: map<K, Inst>, request: Json, newId: K): (out: Outcome<K, Inst>)
    ensures out.reply.Silent? ==> out.pool == pool
    ensures !out.reply.Silent? ==>
      && out.reply == Single(InstantiatedReply(rt.keys.show(newId)))
      && newId in out.pool
      && out.pool == pool[newId := out.pool[newId]]
  {
    match Lookup(request, "algorithm_dto")
    case None => Outcome(Silent(MalformedRequest), pool)
    case Some(raw) =>
      match ParseDescriptor(raw)
      case None => Outcome(Silent(MalformedRequest), pool)
      case Some(dto) =>
        match rt.importClass(dto.modulePath, dto.name)
        case None => Outcome(Silent(UnknownClass), pool)
        case Some(cls) =>
          match Argument(rt, request, "args")
          case Failure(f) => Outcome(Silent(f), pool)
          case Success(args) =>
            match Argument(rt, request, "kwargs")
            case Failure(f) => Outcome(Silent(f), pool)
            case Success(kwargs) =>
              match rt.construct(cls, args, kwargs)
              case Failure(e) => Outcome(Silent(ConstructionFailed(e)), pool)
              case Success(inst) => Outcome(Single(InstantiatedReply(rt.keys.show(newId))), pool[newId := inst])
  }

  /** instantiate either raises and leaves the pool alone, or stores the new
      instance under the new id, replies with that id, and leaves every other
      entry as it was; for an id the pool does not hold yet, the pool grows by
      exactly that entry. */
  lemma InstantiateStores<K, Inst, Val>(rt: Runtime<K, Inst, Val>, pool: map<K, Inst>, request: Json, newId: K)
    ensures var out := InstantiateHandler(rt, pool, request, newId);
      && (out.reply.Silent? ==> out.pool == pool)
      && (!out.reply.Silent? ==>
            && out.reply == Single(InstantiatedReply(rt.keys.show(newId)))
            && newId in out.pool
            && out.pool == pool[newId := out.pool[newId]]
            && (forall k :: k in pool && k != newId ==> k in out.pool && out.pool[k] == pool[k])
            && (newId !in pool ==> out.pool.Keys == pool.Keys + {newId} && |out.pool| == |pool| + 1))
  {
    var out := InstantiateHandler(rt, pool, request, newId);
    if !out.reply.Silent? {
      var dto := ParseDescriptor(Lookup(request, "algorithm_dto").value).value;
      var cls := rt.importClass(dto.modulePath, dto.name).value;
      var args := Argument(rt, request, "args").value;
      var kwargs := Argument(rt, request, "kwargs").value;
      var inst := rt.construct(cls, args, kwargs).value;
      assert out == Outcome(Single(InstantiatedReply(rt.keys.show(newId))), pool[newId := inst]);
      StoreKeeps(pool, newId, inst);
    }
  }

  /** Storing under one key keeps every other entry, and adds exactly one key
      when that key is new. */
  lemma StoreKeeps<K, Inst>(pool: map<K, Inst>, key: K, inst: Inst)
    ensures var after := pool[key := inst];
      && key in after && after[key] == inst
      && (forall k :: k in pool && k != key ==> k in after && after[k] == pool[k])
      && (key !in pool ==> after.Keys == pool.Keys + {key} && |after| == |pool| + 1)
  {
    var after := pool[key := inst];
    if key !in pool {
      assert after.Keys == pool.Keys + {key};
    }
  }

  /** The instance stored is the class named by the descriptor, constructed
      from the decoded arguments. */
  lemma InstantiateConstructs<K, Inst, Val>(rt: Runtime<K, Inst, Val>, pool: map<K, Inst>, d: Descriptor, args: string, kwargs: string, newId: K, cls: Val, a: Val, k: Val, inst: Inst)
    requires rt.importClass(d.modulePath, d.name) == Some(cls)
    requires Loads(rt.sz, args) == Success(a) && Loads(rt.sz, kwargs) == Success(k)
    requires rt.construct(cls, a, k) == Success(inst)
    ensures InstantiateHandler(rt, pool, InstantiateRequest(DescriptorJson(d), args, kwargs), newId)
         == Outcome(Single(InstantiatedReply(rt.keys.show(newId))), pool[newId := inst])
  {
    ParseDescriptorJson(d);
  }

  /** Both delete handlers (websocket and HTTP): the key goes if it was there,
      and the reply is the same either way. */
  function DeleteHandler<K, Inst, Val>(rt: Runtime<K, Inst, Val>, pool: map<K, Inst>, rawId: string): (out: Outcome<K, Inst>)
    ensures rt.keys.parse(rawId).None? ==> out == Outcome(Silent(MalformedId), pool)
    ensures rt.keys.parse(rawId).Some? ==>
      var id := rt.keys.parse(rawId).value;
      && out.reply == Single(DeletedReply(rt.keys.show(id)))
      && id !in out.pool
      && out.pool.Keys == pool.Keys - {id}
      && forall k :: k in out.pool ==> out.pool[k] == pool[k]
  {
    match rt.keys.parse(rawId)
    case None => Outcome(Silent(MalformedId), pool)
    case Some(id) => Outcome(Single(DeletedReply(rt.keys.show(id))), pool - {id})
  }

  /** Deleting twice is deleting once. */
  lemma DeleteIdempotent<K, Inst, Val>(rt: Runtime<K, Inst, Val>, pool: map<K, Inst>, rawId: string)
    ensures var once := DeleteHandler(rt, pool, rawId);
      DeleteHandler(rt, once.pool, rawId) == once
  {
    var once := DeleteHandler(rt, pool, rawId);
    if rt.keys.parse(rawId).Some? {
      var id := rt.keys.parse(rawId).value;
      assert once.pool - {id} == once.pool;
    }
  }

  /** What the HTTP call handler answers. */
  datatype HttpReply =
    | Ok(body: Json)                 // 200 with a JSON body
    | HttpError(status: int, detail: string) // HTTPException(status, detail)
    | Internal(fault: HttpFault)     // an exception escapes the handler (500)

  /** Exceptions that escape the HTTP call handler. */
  datatype HttpFault =
    | BadId
    | NoAttribute(attr: string)
    | WorkerFailed(message: string)  // the bounded worker raised: HTTPException(500, str(e))
    | NotDumpable(message: string)  // dumps of the result raised
    | BadArgument(error: LoadError)  // reported as the detail of a 500 in Python; kept apart here

  /** The HTTP call handler (`/algorithm/call`, server.py lines 68-95) on a
      validated `AttrCallRequest`. The argument decoding lies inside its try. */
  function HttpCall<K, Inst, Val>(rt: Runtime<K, Inst, Val>, pool: map<K, Inst>, instanceId: string, attr: string, args: string, kwargs: string): (r: HttpReply)
    ensures rt.keys.parse(instanceId).Some? && rt.keys.parse(instanceId).value !in pool ==>
      r == HttpError(400, NotFoundMessage(rt.keys.show(rt.keys.parse(instanceId).value)))
  {
    match rt.keys.parse(instanceId)
    case None => Internal(BadId)
    case Some(id) =>
      if id !in pool then HttpError(400, NotFoundMessage(rt.keys.show(id)))
      else
        match rt.getAttr(pool[id], attr)
        case None => Internal(NoAttribute(attr))
        case Some(value) =>
          var result: Result<Val, HttpFault> :=
            if HttpInvocation(rt.isCallable(value)) == NoInvocation then Success(value)
            else match (Loads(rt.sz, args), Loads(rt.sz, kwargs))
              case (Failure(e), _) => Failure(BadArgument(e))
              case (_, Failure(e)) => Failure(BadArgument(e))
              case (Success(a), Success(k)) =>
                match rt.bounded(CallLimits, pool[id], attr, a, k)
                case Success(v) => Success(v)
                case Failure(e) => Failure(WorkerFailed(e));
          match result
          case Failure(WorkerFailed(e)) => HttpError(500, e)
          case Failure(f) => Internal(f)
          case Success(v) =>
            match Dumps(rt.sz, v)
            case Success(data) => Ok(ResultReply(data))
            case Failure(e) => Internal(NotDumpable(e))
  }

  /** The HTTP call handler never writes the pool (it takes no pool argument
      back), bounds every callable, and hands the worker's result to `dumps`
      without unpacking a replacement instance. */
  lemma HttpCallBoundsEveryCallable<K, Inst, Val>(rt: Runtime<K, Inst, Val>, pool: map<K, Inst>, id: K, attr: string, value: Val, args: string, kwargs: string, a: Val, k: Val, v: Val)
    requires rt.keys.parse(rt.keys.show(id)) == Some(id) && id in pool
    requires rt.getAttr(pool[id], attr) == Some(value) && rt.isCallable(value)
    requires Loads(rt.sz, args) == Success(a) && Loads(rt.sz, kwargs) == Success(k)
    requires rt.bounded(CallLimits, pool[id], attr, a, k) == Success(v)
    ensures HttpCall(rt, pool, rt.keys.show(id), attr, args, kwargs)
         == match Dumps(rt.sz, v)
            case Success(data) => Ok(ResultReply(data))
            case Failure(e) => Internal(NotDumpable(e))
  {
  }

  /** The algorithm server: the instance pool and the websocket handlers. */
  class AlgorithmServer<K(==), Inst, Val> {
    const rt: Runtime<K, Inst, Val>
    var pool: map<K, Inst>

    /** `algorithm_pool = {}` */
    constructor (rt: Runtime<K, Inst, Val>)
      ensures this.rt == rt && pool == map[]
    {
      this.rt := rt;
      pool := map[];
    }

    /** `loads(request[key])` */
    method LoadArgument(request: Json, key: string) returns (r: Result<Val, Fault>)
      ensures r == Argument(rt, request, key)
    {
      var text := TextAt(request, key);
      if text.None? {
        return Failure(MalformedRequest);
      }
      var loaded := Loads(rt.sz, text.value);
      if loaded.Failure? {
        return Failure(UnloadableArgument(loaded.error));
      }
      return Success(loaded.value);
    }

    /** The `/algorithm/call` websocket handler. */
    method Call(ws: WebSocket)
      modifies this, ws
      ensures var read := Receive(old(ws.incoming));
        var out := CallSession(rt, old(pool), read.result);
        && ws.incoming == old(ws.incoming)[read.consumed..]
        && pool == out.pool
        && ws.outgoing == old(ws.outgoing) + Emitted(rt.json, out.reply)
    {
      var data := ReceiveLargeMessage(ws);
      if data.Failure? {
        return;
      }
      var parsed := rt.json.loads(data.value);
      if parsed.None? {
        return;
      }
      var request := parsed.value;
      var raw := TextAt(request, "instance_id");
      if raw.None? {
        return;
      }
      var key := rt.keys.parse(raw.value);
      if key.None? {
        return;
      }
      var id := key.value;
      if id !in pool {
        SendJson(ws, rt.json, NotFound(rt, id));
        return;
      }
      var inst := pool[id];
      var name := TextAt(request, "attr");
      if name.None? {
        return;
      }
      var attr := name.value;
      var found := rt.getAttr(inst, attr);
      if found.None? {
        return;
      }
      var isCallable := rt.isCallable(found.value);
      var runAsRestricted := isCallable && attr == "run";
      var args := LoadArgument(request, "args");
      if args.Failure? {
        return;
      }
      var kwargs := LoadArgument(request, "kwargs");
      if kwargs.Failure? {
        return;
      }
      // the try block
      var result: Result<Val, string> := Success(found.value);
      if isCallable {
        if runAsRestricted {
          result := rt.bounded(CallLimits, inst, attr, args.value, kwargs.value);
        } else {
          result := rt.dynamicCall(inst, attr, args.value, kwargs.value);
        }
      }
      if runAsRestricted && result.Success? {
        var unpacked := rt.unpack(result.value);
        if unpacked.Failure? {
          result := Failure(unpacked.error);
        } else {
          result := Success(unpacked.value.0);
          if unpacked.value.1.Some? {
            pool := pool[id := unpacked.value.1.value];
          }
        }
      }
      var resultData: Json;
      if result.Failure? {
        resultData := ErrorReply(result.error);
      } else {
        var dumped := Dumps(rt.sz, result.value);
        resultData := if dumped.Success? then ResultReply(dumped.value) else ErrorReply(dumped.error);
      }
      var _ := SendLargeMessage(ws, rt.json.dumps(resultData), ReplyChunkSize);
    }

    /** The `/algorithm/has_attr` websocket handler. */
    method HasAttr(ws: WebSocket)
      modifies ws
      ensures var out := HasAttrSession(rt, pool, ReceivedJson(rt.json, old(ws.incoming)));
        && ws.incoming == (if old(ws.incoming) == [] then [] else old(ws.incoming)[1..])
        && ws.outgoing == old(ws.outgoing) + Emitted(rt.json, out.reply)
    {
      var request := ReceiveJson(ws, rt.json);
      if request.None? {
        return;
      }
      var raw := TextAt(request.value, "instance_id");
      if raw.None? {
        return;
      }
      var key := rt.keys.parse(raw.value);
      if key.None? {
        return;
      }
      var id := key.value;
      if id !in pool {
        SendJson(ws, rt.json, NotFound(rt, id));
        return;
      }
      var present := false;
      var isCallable := false;
      var name := TextAt(request.value, "attr");
      if name.Some? {
        var found := rt.getAttr(pool[id], name.value);
        if found.Some? {
          present := true;
          isCallable := rt.isCallable(found.value);
        }
      }
      SendJson(ws, rt.json, CapabilityReply(present, present && isCallable));
    }

    /** The `/algorithm/instantiate` websocket handler; `newId` is the
        `uuid4()` it draws. */
    method Instantiate(ws: WebSocket, newId: K)
      modifies this, ws
      ensures var out := InstantiateSession(rt, old(pool), ReceivedJson(rt.json, old(ws.incoming)), newId);
        && ws.incoming == (if old(ws.incoming) == [] then [] else old(ws.incoming)[1..])
        && pool == out.pool
        && ws.outgoing == old(ws.outgoing) + Emitted(rt.json, out.reply)
    {
      var request := ReceiveJson(ws, rt.json);
      if request.None? {
        return;
      }
      var raw := Lookup(request.value, "algorithm_dto");
      if raw.None? {
        return;
      }
      var dto := ParseDescriptor(raw.value);
      if dto.None? {
        return;
      }
      var cls := rt.importClass(dto.value.modulePath, dto.value.name);
      if cls.None? {
        return;
      }
      var args := LoadArgument(request.value, "args");
      if args.Failure? {
        return;
      }
      var kwargs := LoadArgument(request.value, "kwargs");
      if kwargs.Failure? {
        return;
      }
      var inst := rt.construct(cls.value, args.value, kwargs.value);
      if inst.Failure? {
        return;
      }
      pool := pool[newId := inst.value];
      SendJson(ws, rt.json, InstantiatedReply(rt.keys.show(newId)));
    }

    /** The `/algorithm/delete/{raw_id}` websocket handler. */
    method Delete(ws: WebSocket, rawId: string)
      modifies this, ws
      ensures var out := DeleteHandler(rt, old(pool), rawId);
        && ws.incoming == old(ws.incoming)
        && pool == out.pool
        && ws.outgoing == old(ws.outgoing) + Emitted(rt.json, out.reply)
    {
      var key := rt.keys.parse(rawId);
      if key.None? {
        return;
      }
      if key.value in pool {
        pool := pool - {key.value};
      }
      SendJson(ws, rt.json, DeletedReply(rt.keys.show(key.value)));
    }
  }

  /** The whole websocket has_attr handler, from what `receive_json` obtained. */
  function HasAttrSession<K, Inst, Val>(rt: Runtime<K, Inst, Val>, pool: map<K, Inst>, received: Option<Json>): Outcome<K, Inst>
  {
    match received
    case None => Outcome(Silent(NoRequest), pool)
    case Some(request) => HasAttrHandler(rt, pool, request)
  }

  /** The whole websocket instantiate handler, from what `receive_json` obtained. */
  function InstantiateSession<K, Inst, Val>(rt: Runtime<K, Inst, Val>, pool: map<K, Inst>, received: Option<Json>, newId: K): Outcome<K, Inst>
  {
    match received
    case None => Outcome(Silent(NoRequest), pool)
    case Some(request) => InstantiateHandler(rt, pool, request, newId)
  }
}
