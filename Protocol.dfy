/**
 * The messages that the websocket API of autogoal_remote/distributed exchanges.
 *
 * Every message is a JSON object. The JSON text layer (`json.dumps`,
 * `json.loads`, `send_json`, `receive_json`) is a library and is opaque here:
 * a pair of functions whose only assumed property, where one is needed, is
 * that reading back what was written gives the same value.
 */
module Protocol {
  import opened Wrappers
  import opened Chunking
  import opened Codec

  /** A decoded JSON value. Numbers are integers only. */
  datatype Json =
    | Null
    | Bool(b: bool)
    | Number(n: int)
    | Str(s: string)
    | Array(items: seq<Json>)
    | Object(fields: map<string, Json>)

  /** The JSON text layer; `loads` is None where `json.loads` raises. */
  datatype JsonText = JsonText(dumps: Json -> string, loads: string -> Option<Json>)

  /** Reading back a written value gives that value. */
  ghost predicate Lossless(j: JsonText)
  {
    forall v :: j.loads(j.dumps(v)) == Some(v)
  }

  /** The text form of instance ids (`str(uuid)` and `uuid.UUID(text, version=4)`);
      `parse` is None where the constructor raises. */
  datatype KeyText<!K> = KeyText(show: K -> string, parse: string -> Option<K>)

  /** Parsing the text of an id gives back the id. */
  ghost predicate Readable<K(!new)>(t: KeyText<K>)
  {
    forall k :: t.parse(t.show(k)) == Some(k)
  }

  /** `value[key]`: None where it raises (not a dict, or no such key). */
  function Lookup(value: Json, key: string): (r: Option<Json>)
    ensures r.Some? <==> value.Object? && key in value.fields
    ensures r.Some? ==> r.value == value.fields[key]
  {
    if value.Object? && key in value.fields then Some(value.fields[key]) else None
  }

  /** `value[key]` where the use that follows needs a str (string methods,
      `uuid.UUID`, `getattr`): None where either raises. */
  function TextAt(value: Json, key: string): (r: Option<string>)
    ensures r.Some? <==> value.Object? && key in value.fields && value.fields[key].Str?
    ensures r.Some? ==> value.fields[key] == Str(r.value)
  {
    match Lookup(value, key)
    case Some(Str(s)) => Some(s)
    case _ => None
  }

  /** `value.get(key)` on a dict: null where the key is absent. */
  function Get(fields: map<string, Json>, key: string): (r: Json)
    ensures key !in fields ==> r == Null
    ensures key in fields ==> r == fields[key]
  {
    if key in fields then fields[key] else Null
  }

  /** Python truthiness of a decoded JSON value. */
  predicate Truthy(v: Json)
  {
    match v
    case Null => false
    case Bool(b) => b
    case Number(n) => n != 0
    case Str(s) => s != ""
    case Array(items) => items != []
    case Object(fields) => fields != map[]
  }

  /** The JSON object a frame is on the wire: what a reader that does not
      reassemble chunks (`receive_json`, `recv`) obtains from it. */
  function FrameJson(j: JsonText, f: Frame): (r: Option<Json>)
    ensures f.Chunk? ==> r == Some(Object(map["type" := Str("chunk"), "data" := Str(f.data)]))
    ensures f.ChunkCount? ==> r == Some(Object(map["type" := Str("chunk_count"), "count" := Number(f.count)]))
    ensures f.Message? ==> r == j.loads(f.text)
  {
    match f
    case ChunkCount(n) => Some(Object(map["type" := Str("chunk_count"), "count" := Number(n)]))
    case Chunk(d) => Some(Object(map["type" := Str("chunk"), "data" := Str(d)]))
    case Message(t) => j.loads(t)
  }

  /** What `receive_json` (or `recv` followed by `json.loads`) obtains from the
      frames still to be read: None where it raises. */
  function ReceivedJson(j: JsonText, incoming: seq<Frame>): Option<Json>
  {
    if incoming == [] then None else FrameJson(j, incoming[0])
  }

  /** `receive_json()`: takes one frame off the connection. */
  method ReceiveJson(ws: WebSocket, j: JsonText) returns (r: Option<Json>)
    modifies ws
    ensures r == ReceivedJson(j, old(ws.incoming))
    ensures ws.incoming == if old(ws.incoming) == [] then [] else old(ws.incoming)[1..]
    ensures ws.outgoing == old(ws.outgoing)
  {
    var f := ws.Next();
    if f.None? {
      r := None;
    } else {
      r := FrameJson(j, f.value);
    }
  }

  /** `send_json(value)`: one frame holding the JSON text of `value`. */
  method SendJson(ws: WebSocket, j: JsonText, value: Json)
    modifies ws
    ensures ws.outgoing == old(ws.outgoing) + [Message(j.dumps(value))]
    ensures ws.incoming == old(ws.incoming)
  {
    ws.Send(Message(j.dumps(value)));
  }

  /** The request of `call_algorithm` and of the `/algorithm/call` handler. */
  function CallRequest(instanceId: string, attr: string, args: string, kwargs: string): (v: Json)
    ensures v.Object? && v.fields.Keys == {"instance_id", "attr", "args", "kwargs"}
    ensures TextAt(v, "instance_id") == Some(instanceId) && TextAt(v, "attr") == Some(attr)
    ensures TextAt(v, "args") == Some(args) && TextAt(v, "kwargs") == Some(kwargs)
  {
    Object(map["instance_id" := Str(instanceId), "attr" := Str(attr), "args" := Str(args), "kwargs" := Str(kwargs)])
  }

  /** The request of the `has_attr` websocket client and handler. */
  function AttrRequest(instanceId: string, attr: string): (v: Json)
    ensures v.Object? && v.fields.Keys == {"instance_id", "attr"}
    ensures TextAt(v, "instance_id") == Some(instanceId) && TextAt(v, "attr") == Some(attr)
  {
    Object(map["instance_id" := Str(instanceId), "attr" := Str(attr)])
  }

  /** The request of the `instantiate` websocket client and handler. */
  function InstantiateRequest(dto: Json, args: string, kwargs: string): (v: Json)
    ensures v.Object? && v.fields.Keys == {"algorithm_dto", "args", "kwargs"}
    ensures Lookup(v, "algorithm_dto") == Some(dto)
    ensures TextAt(v, "args") == Some(args) && TextAt(v, "kwargs") == Some(kwargs)
  {
    Object(map["algorithm_dto" := dto, "args" := Str(args), "kwargs" := Str(kwargs)])
  }

  /** `{"error": message}` */
  function ErrorReply(message: string): Json
  {
    Object(map["error" := Str(message)])
  }

  /** `{"result": data}` */
  function ResultReply(data: string): Json
  {
    Object(map["result" := Str(data)])
  }

  /** `{"exists": present, "is_callable": isCallable}` */
  function CapabilityReply(present: bool, isCallable: bool): Json
  {
    Object(map["exists" := Bool(present), "is_callable" := Bool(isCallable)])
  }

  /** `{"message": "success", "id": id}` */
  function InstantiatedReply(id: string): Json
  {
    Object(map["message" := Str("success"), "id" := Str(id)])
  }

  /** The message of the reply to a lookup of an id the pool does not hold. */
  function NotFoundMessage(id: string): string
  {
    "Algorithm instance with id=" + id + " not found"
  }

  /** `{"message": f"deleted instance with id={id}"}` */
  function DeletedReply(id: string): Json
  {
    Object(map["message" := Str("deleted instance with id=" + id)])
  }

  /** The field names of `RemoteAlgorithmDTO`, in declaration order. */
  const DescriptorFields: seq<string> :=
    ["name", "module", "contrib", "input_args", "init_input_types", "inner_signature", "input_types", "output_type"]

  /** `dto.dict()` */
  function DescriptorJson(d: Descriptor): (v: Json)
    ensures v.Object? && v.fields.Keys == set f | f in DescriptorFields
  {
    Object(map[
      "name" := Str(d.name),
      "module" := Str(d.modulePath),
      "contrib" := Str(d.contrib),
      "input_args" := Str(d.inputArgs),
      "init_input_types" := Str(d.initInputTypes),
      "inner_signature" := Str(d.innerSignature),
      "input_types" := Str(d.inputTypes),
      "output_type" := Str(d.outputType)])
  }

  /** `RemoteAlgorithmDTO.parse_obj(value)`: every declared field must be present
      as a string, and then the descriptor holds those strings; other fields
      are ignored. */
  function ParseDescriptor(value: Json): (r: Option<Descriptor>)
    ensures r.Some? <==> forall f :: f in DescriptorFields ==> TextAt(value, f).Some?
    ensures r.Some? ==>
      && r.value.name == TextAt(value, "name").value
      && r.value.modulePath == TextAt(value, "module").value
      && r.value.contrib == TextAt(value, "contrib").value
      && r.value.inputArgs == TextAt(value, "input_args").value
      && r.value.initInputTypes == TextAt(value, "init_input_types").value
      && r.value.innerSignature == TextAt(value, "inner_signature").value
      && r.value.inputTypes == TextAt(value, "input_types").value
      && r.value.outputType == TextAt(value, "output_type").value
  {
    FieldsPresent(value);
    match (TextAt(value, "name"), TextAt(value, "module"), TextAt(value, "contrib"), TextAt(value, "input_args"))
    case (Some(name), Some(modulePath), Some(contrib), Some(inputArgs)) =>
      (match (TextAt(value, "init_input_types"), TextAt(value, "inner_signature"), TextAt(value, "input_types"), TextAt(value, "output_type"))
       case (Some(initInputTypes), Some(innerSignature), Some(inputTypes), Some(outputType)) =>
         Some(Descriptor(name, modulePath, contrib, inputArgs, initInputTypes, innerSignature, inputTypes, outputType))
       case _ => None)
    case _ => None
  }

  /** Every declared field is a string exactly when each of the eight is. */
  lemma FieldsPresent(value: Json)
    ensures (forall f :: f in DescriptorFields ==> TextAt(value, f).Some?) <==>
      && TextAt(value, "name").Some? && TextAt(value, "module").Some?
      && TextAt(value, "contrib").Some? && TextAt(value, "input_args").Some?
      && TextAt(value, "init_input_types").Some? && TextAt(value, "inner_signature").Some?
      && TextAt(value, "input_types").Some? && TextAt(value, "output_type").Some?
  {
  }

  /** A descriptor survives `dict()` followed by `parse_obj`. */
  lemma ParseDescriptorJson(d: Descriptor)
    ensures ParseDescriptor(DescriptorJson(d)) == Some(d)
  {
    IdentityFields(d);
    SerializedFields(d);
  }

  /** The name, module and contrib of `dto.dict()` are the descriptor's. */
  lemma IdentityFields(d: Descriptor)
    ensures var v := DescriptorJson(d);
      && TextAt(v, "name") == Some(d.name) && TextAt(v, "module") == Some(d.modulePath)
      && TextAt(v, "contrib") == Some(d.contrib) && TextAt(v, "input_args") == Some(d.inputArgs)
  {
    var v := DescriptorJson(d);
    assert v.fields["name"] == Str(d.name);
    assert v.fields["module"] == Str(d.modulePath);
    assert v.fields["contrib"] == Str(d.contrib);
    assert v.fields["input_args"] == Str(d.inputArgs);
  }

  /** The serialized fields of `dto.dict()` are the descriptor's. */
  lemma SerializedFields(d: Descriptor)
    ensures var v := DescriptorJson(d);
      && TextAt(v, "init_input_types") == Some(d.initInputTypes) && TextAt(v, "inner_signature") == Some(d.innerSignature)
      && TextAt(v, "input_types") == Some(d.inputTypes) && TextAt(v, "output_type") == Some(d.outputType)
  {
    var v := DescriptorJson(d);
    assert v.fields["init_input_types"] == Str(d.initInputTypes);
    assert v.fields["inner_signature"] == Str(d.innerSignature);
    assert v.fields["input_types"] == Str(d.inputTypes);
    assert v.fields["output_type"] == Str(d.outputType);
  }
}
