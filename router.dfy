/** The request-validation and routing layer of web_api_client.py:
    `get_request_data` and the eleven /api/ handlers, which either reject a
    request with a 400 envelope before any upstream call or resolve it to one
    call of `make_atlas_request` (method, URL, Accept, Content-Type, body and
    the key pair for digest authentication). */
module Router {
  import opened Wrappers
  import opened Json

  const DefaultAtlasHost := "cloud.mongodb.com"

  /** Accept header of the processor endpoints. */
  const ProcessorsMediaType := "application/vnd.atlas.2024-05-30+json"
  /** Accept header of the instance and connection endpoints. */
  const InstancesMediaType := "application/vnd.atlas.2023-02-01+json"
  /** Content-Type that make_atlas_request sends when the handler gives none. */
  const JsonMediaType := "application/json"

  const InvalidFormat := "Invalid request format. Expected JSON."
  const MissingRequired := "Missing required fields."
  const InvalidProcessorAction := "Invalid action specified."
  const InvalidConnectionAction := "Invalid action specified for connection."

  /** The eleven POST endpoints under /api/. */
  datatype Route =
    | FetchData
    | ManageProcessor
    | CreateProcessor
    | GetProcessorStats
    | CreateSpi
    | DeleteSpi
    | CreateConnection
    | ListConnections
    | GetConnectionDetails
    | ManageConnection
    | ListSpis

  datatype Method = GET | POST | DELETE

  /** One chunk of an f-string: literal text, or a value that is interpolated
      with `str()` and without any escaping. */
  datatype Piece = Lit(text: string) | Hole(value: Value)

  type Url = seq<Piece>

  /** The arguments a handler passes to make_atlas_request. */
  datatype ResolvedCall = ResolvedCall(
    verb: Method,
    url: Url,
    accept: string,
    contentType: string,
    body: Option<Value>,
    publicKey: Value,
    privateKey: Value)

  /** Python exceptions that escape a handler; Flask answers them with its own
      500 Internal Server Error page. */
  datatype PyException = KeyError(key: string) | AttributeError(name: string)

  /** Why a request produced no upstream call. */
  datatype Failure = InputError(message: string) | Uncaught(exception: PyException)

  /** `data.get(key)`: an absent key reads as None, like a JSON null. */
  function Lookup(data: map<string, Value>, key: string): Value {
    if key in data then data[key] else Null
  }

  /** `data[key]`: an absent key raises KeyError. */
  function Subscript(data: map<string, Value>, key: string): Result<Value, Failure> {
    if key in data then Success(data[key]) else Failure(Uncaught(KeyError(key)))
  }

  /** The host that get_request_data validates: the default stands in only
      when the key is absent, not when its value is null or empty. */
  function ValidatedHost(data: map<string, Value>): Value {
    if "atlas_host" in data then data["atlas_host"] else Str(DefaultAtlasHost)
  }

  /** The common gate's field test: all four values are truthy. */
  predicate Credentialed(data: map<string, Value>) {
    && Truthy(Lookup(data, "public_key"))
    && Truthy(Lookup(data, "private_key"))
    && Truthy(Lookup(data, "project_id"))
    && Truthy(ValidatedHost(data))
  }

  /** get_request_data: the JSON body must be truthy and, to have `.get`, a
      dict; then the credentials and the project must be present. */
  function RequestData(body: Value): Result<map<string, Value>, Failure> {
    if !Truthy(body) then Failure(InputError(InvalidFormat))
    else if !body.Object? then Failure(Uncaught(AttributeError("get")))
    else if !Credentialed(body.fields) then Failure(InputError(MissingRequired))
    else Success(body.fields)
  }

  /** The fields each handler requires to be truthy after the common gate. */
  function RequiredFields(route: Route): seq<string> {
    match route
    case FetchData => ["instance_name"]
    case ManageProcessor => ["instance_name", "processor_name", "action"]
    case CreateProcessor => ["instance_name", "processor_body"]
    case GetProcessorStats => ["instance_name", "processor_name"]
    case CreateSpi => ["spi_body"]
    case DeleteSpi => ["instance_name"]
    case CreateConnection => ["instance_name", "connection_body"]
    case ListConnections => ["instance_name"]
    case GetConnectionDetails => ["instance_name", "connection_name"]
    case ManageConnection => ["instance_name", "connection_name", "action"]
    case ListSpis => []
  }

  /** The per-route gate: every required field is truthy, and create_spi's
      body is a dict. */
  predicate RouteFieldsPresent(route: Route, data: map<string, Value>) {
    && (forall k :: 0 <= k < |RequiredFields(route)| ==> Truthy(Lookup(data, RequiredFields(route)[k])))
    && (route == CreateSpi ==> Lookup(data, "spi_body").Object?)
  }

  /** The 400 message of each handler's own gate. */
  function MissingMessage(route: Route): string {
    match route
    case FetchData => "Missing 'instance_name' for fetching processors."
    case ManageProcessor => "Missing required fields for processor management."
    case CreateProcessor => "Missing instance_name or processor_body for create."
    case GetProcessorStats => "Missing instance_name or processor_name for stats task."
    case CreateSpi => "Missing or invalid 'spi_body' in request."
    case DeleteSpi => "Missing 'instance_name' to delete."
    case CreateConnection => "Missing instance_name or connection_body for create."
    case ListConnections => "Missing 'instance_name' for listing connections."
    case GetConnectionDetails => "Missing instance_name or connection_name for details task."
    case ManageConnection => "Missing required fields for connection management."
    // list_spis has no gate of its own, so this text is never produced.
    case ListSpis => ""
  }

  function InvalidActionMessage(route: Route): string {
    if route == ManageConnection then InvalidConnectionAction else InvalidProcessorAction
  }

  /** The common prefix `https://{atlas_host}/api/atlas/v2/groups/{project_id}`. */
  function Groups(host: Value, project: Value): Url {
    [Lit("https://"), Hole(host), Lit("/api/atlas/v2/groups/"), Hole(project)]
  }

  /** A call as make_atlas_request receives it; a missing Content-Type
      becomes application/json. */
  function Call(verb: Method, url: Url, accept: string, body: Option<Value>,
                contentType: Option<string>, data: map<string, Value>): ResolvedCall
    requires "public_key" in data && "private_key" in data
  {
    var effectiveType := if contentType.None? then JsonMediaType else contentType.value;
    ResolvedCall(verb, url, accept, effectiveType, body, data["public_key"], data["private_key"])
  }

  /** The handlers after the common gate, in the source's order of checks. */
  function Dispatch(route: Route, data: map<string, Value>): Result<ResolvedCall, Failure>
    requires Credentialed(data)
  {
    var instance := Lookup(data, "instance_name");
    var project := data["project_id"];
    match route
    case FetchData =>
      if !Truthy(instance) then Failure(InputError(MissingMessage(route)))
      else
        var host :- Subscript(data, "atlas_host");
        var url := Groups(host, project) + [Lit("/streams/"), Hole(instance), Lit("/processors")];
        Success(Call(GET, url, ProcessorsMediaType, None, None, data))
    case ManageProcessor =>
      var name := Lookup(data, "processor_name");
      var action := Lookup(data, "action");
      if !(Truthy(instance) && Truthy(name) && Truthy(action)) then Failure(InputError(MissingMessage(route)))
      else
        var host :- Subscript(data, "atlas_host");
        var base := Groups(host, project) + [Lit("/streams/"), Hole(instance), Lit("/processor/"), Hole(name)];
        if action == Str("start") then Success(Call(POST, base + [Lit(":start")], ProcessorsMediaType, None, None, data))
        else if action == Str("stop") then Success(Call(POST, base + [Lit(":stop")], ProcessorsMediaType, None, None, data))
        else if action == Str("delete") then Success(Call(DELETE, base, ProcessorsMediaType, None, None, data))
        else Failure(InputError(InvalidProcessorAction))
    case CreateProcessor =>
      var processorBody := Lookup(data, "processor_body");
      if !(Truthy(instance) && Truthy(processorBody)) then Failure(InputError(MissingMessage(route)))
      else
        var host :- Subscript(data, "atlas_host");
        var url := Groups(host, project) + [Lit("/streams/"), Hole(instance), Lit("/processor")];
        Success(Call(POST, url, ProcessorsMediaType, Some(processorBody), None, data))
    case GetProcessorStats =>
      var name := Lookup(data, "processor_name");
      if !(Truthy(instance) && Truthy(name)) then Failure(InputError(MissingMessage(route)))
      else
        var host :- Subscript(data, "atlas_host");
        var url := Groups(host, project) + [Lit("/streams/"), Hole(instance), Lit("/processor/"), Hole(name)];
        Success(Call(GET, url, ProcessorsMediaType, None, None, data))
    case CreateSpi =>
      var spiBody := Lookup(data, "spi_body");
      if !Truthy(spiBody) || !spiBody.Object? then Failure(InputError(MissingMessage(route)))
      else
        var host :- Subscript(data, "atlas_host");
        var url := Groups(host, project) + [Lit("/streams")];
        Success(Call(POST, url, InstancesMediaType, Some(spiBody), None, data))
    case DeleteSpi =>
      if !Truthy(instance) then Failure(InputError(MissingMessage(route)))
      else
        var host :- Subscript(data, "atlas_host");
        var url := Groups(host, project) + [Lit("/streams/"), Hole(instance)];
        Success(Call(DELETE, url, InstancesMediaType, None, None, data))
    case CreateConnection =>
      var connectionBody := Lookup(data, "connection_body");
      if !(Truthy(instance) && Truthy(connectionBody)) then Failure(InputError(MissingMessage(route)))
      else
        var host :- Subscript(data, "atlas_host");
        var url := Groups(host, project) + [Lit("/streams/"), Hole(instance), Lit("/connections")];
        Success(Call(POST, url, InstancesMediaType, Some(connectionBody), Some(InstancesMediaType), data))
    case ListConnections =>
      if !Truthy(instance) then Failure(InputError(MissingMessage(route)))
      else
        var host :- Subscript(data, "atlas_host");
        var url := Groups(host, project) + [Lit("/streams/"), Hole(instance), Lit("/connections")];
        Success(Call(GET, url, InstancesMediaType, None, None, data))
    case GetConnectionDetails =>
      var name := Lookup(data, "connection_name");
      if !(Truthy(instance) && Truthy(name)) then Failure(InputError(MissingMessage(route)))
      else
        var host :- Subscript(data, "atlas_host");
        var url := Groups(host, project) + [Lit("/streams/"), Hole(instance), Lit("/connections/"), Hole(name)];
        Success(Call(GET, url, InstancesMediaType, None, None, data))
    case ManageConnection =>
      var name := Lookup(data, "connection_name");
      var action := Lookup(data, "action");
      if !(Truthy(instance) && Truthy(name) && Truthy(action)) then Failure(InputError(MissingMessage(route)))
      else if action == Str("delete") then
        var host :- Subscript(data, "atlas_host");
        var url := Groups(host, project) + [Lit("/streams/"), Hole(instance), Lit("/connections/"), Hole(name)];
        Success(Call(DELETE, url, InstancesMediaType, None, None, data))
      else Failure(InputError(InvalidConnectionAction))
    case ListSpis =>
      var host :- Subscript(data, "atlas_host");
      Success(Call(GET, Groups(host, project) + [Lit("/streams")], InstancesMediaType, None, None, data))
  }

  // ---------------------------------------------------------------------
  // The endpoint table of the upstream API, stated independently of the
  // handlers: which resource and operation each request means, and which
  // method, path, media types and body that operation takes.

  datatype Resource = Processor | Instance | Connection
  datatype Operation = List | Show | Create | Start | Stop | Delete

  /** Placeholders of a path: the instance name, and the processor or
      connection name. */
  datatype Slot = InstanceSlot | NameSlot
  datatype Segment = Fixed(text: string) | Param(slot: Slot)

  datatype Endpoint = Endpoint(verb: Method, path: seq<Segment>, accept: string,
                               contentType: string, sendsBody: bool)

  /** The path under `/groups/{project}`, method and media types of each
      operation the upstream API offers. */
  function Endpoints(resource: Resource, op: Operation): Option<Endpoint> {
    var instancePath := [Fixed("/streams/"), Param(InstanceSlot)];
    match (resource, op)
    case (Processor, List) =>
      Some(Endpoint(GET, instancePath + [Fixed("/processors")], ProcessorsMediaType, JsonMediaType, false))
    case (Processor, Create) =>
      Some(Endpoint(POST, instancePath + [Fixed("/processor")], ProcessorsMediaType, JsonMediaType, true))
    case (Processor, Show) =>
      Some(Endpoint(GET, instancePath + [Fixed("/processor/"), Param(NameSlot)], ProcessorsMediaType, JsonMediaType, false))
    case (Processor, Start) =>
      Some(Endpoint(POST, instancePath + [Fixed("/processor/"), Param(NameSlot), Fixed(":start")], ProcessorsMediaType, JsonMediaType, false))
    case (Processor, Stop) =>
      Some(Endpoint(POST, instancePath + [Fixed("/processor/"), Param(NameSlot), Fixed(":stop")], ProcessorsMediaType, JsonMediaType, false))
    case (Processor, Delete) =>
      Some(Endpoint(DELETE, instancePath + [Fixed("/processor/"), Param(NameSlot)], ProcessorsMediaType, JsonMediaType, false))
    case (Instance, List) =>
      Some(Endpoint(GET, [Fixed("/streams")], InstancesMediaType, JsonMediaType, false))
    case (Instance, Create) =>
      Some(Endpoint(POST, [Fixed("/streams")], InstancesMediaType, JsonMediaType, true))
    case (Instance, Delete) =>
      Some(Endpoint(DELETE, instancePath, InstancesMediaType, JsonMediaType, false))
    case (Connection, List) =>
      Some(Endpoint(GET, instancePath + [Fixed("/connections")], InstancesMediaType, JsonMediaType, false))
    case (Connection, Create) =>
      Some(Endpoint(POST, instancePath + [Fixed("/connections")], InstancesMediaType, InstancesMediaType, true))
    case (Connection, Show) =>
      Some(Endpoint(GET, instancePath + [Fixed("/connections/"), Param(NameSlot)], InstancesMediaType, JsonMediaType, false))
    case (Connection, Delete) =>
      Some(Endpoint(DELETE, instancePath + [Fixed("/connections/"), Param(NameSlot)], InstancesMediaType, JsonMediaType, false))
    case _ => None
  }

  /** The resource and operation a request asks for; None for an action
      that the management routes do not know. */
  function Intent(route: Route, action: Value): Option<(Resource, Operation)> {
    match route
    case FetchData => Some((Processor, List))
    case ManageProcessor =>
      if action == Str("start") then Some((Processor, Start))
      else if action == Str("stop") then Some((Processor, Stop))
      else if action == Str("delete") then Some((Processor, Delete))
      else None
    case CreateProcessor => Some((Processor, Create))
    case GetProcessorStats => Some((Processor, Show))
    case CreateSpi => Some((Instance, Create))
    case DeleteSpi => Some((Instance, Delete))
    case ListSpis => Some((Instance, List))
    case CreateConnection => Some((Connection, Create))
    case ListConnections => Some((Connection, List))
    case GetConnectionDetails => Some((Connection, Show))
    case ManageConnection => if action == Str("delete") then Some((Connection, Delete)) else None
  }

  /** The resource family a route works on. */
  function ResourceOf(route: Route): Resource {
    match route
    case FetchData | ManageProcessor | CreateProcessor | GetProcessorStats => Processor
    case CreateSpi | DeleteSpi | ListSpis => Instance
    case CreateConnection | ListConnections | GetConnectionDetails | ManageConnection => Connection
  }

  /** The request field that fills the name placeholder. */
  function NameField(resource: Resource): string {
    match resource
    case Processor => "processor_name"
    case Instance => "instance_name"
    case Connection => "connection_name"
  }

  /** The request field that holds the JSON body of a create. */
  function BodyField(resource: Resource): string {
    match resource
    case Processor => "processor_body"
    case Instance => "spi_body"
    case Connection => "connection_body"
  }

  function Fill(segment: Segment, instance: Value, name: Value): Piece {
    match segment
    case Fixed(t) => Lit(t)
    case Param(InstanceSlot) => Hole(instance)
    case Param(NameSlot) => Hole(name)
  }

  /** A path with its placeholders replaced by the request's values. */
  function Instantiate(path: seq<Segment>, instance: Value, name: Value): (url: Url)
  {
    seq(|path|, k requires 0 <= k < |path| => Fill(path[k], instance, name))
  }

  /** A request that the handlers forward: the body is a non-empty dict that
      passes both gates, names a known action, and has an atlas_host key. */
  predicate Admissible(route: Route, body: Value) {
    && body.Object? && body.fields != map[]
    && Credentialed(body.fields)
    && RouteFieldsPresent(route, body.fields)
    && Intent(route, Lookup(body.fields, "action")).Some?
    && "atlas_host" in body.fields
  }

  /** The call the endpoint table prescribes for an admissible request. */
  function TableCall(route: Route, body: Value): ResolvedCall
    requires Admissible(route, body)
  {
    var data := body.fields;
    var action := Lookup(data, "action");
    var (resource, op) := Intent(route, action).value;
    IntentHasEndpoint(route, action);
    var ep := Endpoints(resource, op).value;
    var url := Groups(data["atlas_host"], data["project_id"])
      + Instantiate(ep.path, Lookup(data, "instance_name"), Lookup(data, NameField(resource)));
    var payload := if ep.sendsBody then Some(Lookup(data, BodyField(resource))) else None;
    ResolvedCall(ep.verb, url, ep.accept, ep.contentType, payload, data["public_key"], data["private_key"])
  }

  /** Every operation a request can ask for is in the endpoint table. */
  lemma IntentHasEndpoint(route: Route, action: Value)
    requires Intent(route, action).Some?
    ensures Endpoints(Intent(route, action).value.0, Intent(route, action).value.1).Some?
  {
  }

  /** A request to one of the /api/ routes: the common gate, the route's own
      gate, then the call. */
  function Resolve(route: Route, body: Value): (r: Result<ResolvedCall, Failure>)
    // An absent or empty JSON body.
    ensures !Truthy(body) ==> r == Failure(InputError(InvalidFormat))
    // A body that is not a dict has no `.get`.
    ensures Truthy(body) && !body.Object? ==> r == Failure(Uncaught(AttributeError("get")))
    // The common gate, with the host defaulted only when its key is absent.
    ensures Truthy(body) && body.Object? && !Credentialed(body.fields) ==> r == Failure(InputError(MissingRequired))
    // The per-route gates are stated by ResolveRouteGates.
    // A call is made exactly for admissible requests, and it is the one the
    // endpoint table prescribes.
    ensures r.Success? <==> Admissible(route, body)
    ensures r.Success? ==> r.value == TableCall(route, body)
  {
    // get_request_data fails exactly on the bodies that are not gated.
    if !Gated(body) then
      RequestData(body).PropagateFailure()
    else
      DispatchFollowsTable(route, body);
      Dispatch(route, body.fields)
  }

  /** Past the common gate, a route missing its own fields is refused with
      its own message. */
  lemma ResolveMissingFields(route: Route, body: Value)
    requires Gated(body) && !RouteFieldsPresent(route, body.fields)
    ensures Resolve(route, body) == Failure(InputError(MissingMessage(route)))
  {
    var data := body.fields;
    assert Resolve(route, body) == Dispatch(route, data);
    var fields := RequiredFields(route);
    match route
    case ManageProcessor =>
      assert fields[1] == "processor_name" && fields[2] == "action";
      assert !Truthy(Lookup(data, "instance_name")) || !Truthy(Lookup(data, "processor_name"))
             || !Truthy(Lookup(data, "action"));
    case ManageConnection =>
      assert fields[1] == "connection_name" && fields[2] == "action";
      assert !Truthy(Lookup(data, "instance_name")) || !Truthy(Lookup(data, "connection_name"))
             || !Truthy(Lookup(data, "action"));
    case CreateProcessor =>
      assert !Truthy(Lookup(data, "instance_name")) || !Truthy(Lookup(data, fields[1]));
    case GetProcessorStats =>
      assert !Truthy(Lookup(data, "instance_name")) || !Truthy(Lookup(data, fields[1]));
    case CreateConnection =>
      assert !Truthy(Lookup(data, "instance_name")) || !Truthy(Lookup(data, fields[1]));
    case GetConnectionDetails =>
      assert !Truthy(Lookup(data, "instance_name")) || !Truthy(Lookup(data, fields[1]));
    case _ =>
  }

  /** With its fields present, an absent atlas_host key fails the URL's
      subscript, unless manage_connection has already refused the action;
      an unknown action is refused, after manage_processor has built its
      URL. */
  lemma ResolveRouteGates(route: Route, body: Value)
    requires Gated(body) && RouteFieldsPresent(route, body.fields)
    ensures ("atlas_host" !in body.fields
             && (route == ManageConnection ==> Lookup(body.fields, "action") == Str("delete")))
            ==> Resolve(route, body) == Failure(Uncaught(KeyError("atlas_host")))
    ensures (Intent(route, Lookup(body.fields, "action")).None?
             && ("atlas_host" in body.fields || route == ManageConnection))
            ==> Resolve(route, body) == Failure(InputError(InvalidActionMessage(route)))
  {
    assert Resolve(route, body) == Dispatch(route, body.fields);
    DispatchFollowsTable(route, body);
  }

  /** The body passed the common gate. */
  predicate Gated(body: Value) {
    body.Object? && body.fields != map[] && Credentialed(body.fields)
  }

  /** What the handlers after the common gate do, stated by the endpoint
      table and the order of the checks. */
  predicate AgreesWithTable(route: Route, body: Value)
    requires Gated(body)
  {
    var data := body.fields;
    var outcome := Dispatch(route, data);
    && (outcome.Success? <==> Admissible(route, body))
    && (outcome.Success? ==> outcome.value == TableCall(route, body))
    && ((&& RouteFieldsPresent(route, data) && "atlas_host" !in data
         && (route == ManageConnection ==> Lookup(data, "action") == Str("delete")))
        ==> outcome == Failure(Uncaught(KeyError("atlas_host"))))
    && ((&& RouteFieldsPresent(route, data) && Intent(route, Lookup(data, "action")).None?
         && ("atlas_host" in data || route == ManageConnection))
        ==> outcome == Failure(InputError(InvalidActionMessage(route))))
  }

  /** The handlers after the common gate agree with the endpoint table. */
  lemma DispatchFollowsTable(route: Route, body: Value)
    requires Gated(body)
    ensures AgreesWithTable(route, body)
  {
    match route
    case FetchData => ProcessorRoutesFollowTable(route, body);
    case CreateProcessor => ProcessorRoutesFollowTable(route, body);
    case GetProcessorStats => ProcessorRoutesFollowTable(route, body);
    case ManageProcessor => ManageProcessorFollowsTable(body);
    case CreateSpi => InstanceRoutesFollowTable(route, body);
    case DeleteSpi => InstanceRoutesFollowTable(route, body);
    case ListSpis => InstanceRoutesFollowTable(route, body);
    case CreateConnection => ConnectionRoutesFollowTable(route, body);
    case ListConnections => ConnectionRoutesFollowTable(route, body);
    case GetConnectionDetails => ConnectionRoutesFollowTable(route, body);
    case ManageConnection => ConnectionRoutesFollowTable(route, body);
  }

  lemma ProcessorRoutesFollowTable(route: Route, body: Value)
    requires Gated(body)
    requires route == FetchData || route == CreateProcessor || route == GetProcessorStats
    ensures AgreesWithTable(route, body)
  {
    var fields := RequiredFields(route);
    assert fields[0] == "instance_name";
    if route != FetchData {
      assert RouteFieldsPresent(route, body.fields) <==>
        Truthy(Lookup(body.fields, "instance_name")) && Truthy(Lookup(body.fields, fields[1]));
    }
  }

  lemma InstanceRoutesFollowTable(route: Route, body: Value)
    requires Gated(body)
    requires route == CreateSpi || route == DeleteSpi || route == ListSpis
    ensures AgreesWithTable(route, body)
  {
    if route == CreateSpi {
      assert RequiredFields(route)[0] == "spi_body";
    } else if route == DeleteSpi {
      assert RequiredFields(route)[0] == "instance_name";
    }
  }

  lemma ConnectionRoutesFollowTable(route: Route, body: Value)
    requires Gated(body)
    requires route == CreateConnection || route == ListConnections || route == GetConnectionDetails || route == ManageConnection
    ensures AgreesWithTable(route, body)
  {
    var data := body.fields;
    var fields := RequiredFields(route);
    assert fields[0] == "instance_name";
    if route == ManageConnection {
      assert fields[1] == "connection_name" && fields[2] == "action";
      assert RouteFieldsPresent(route, data) <==>
        Truthy(Lookup(data, "instance_name")) && Truthy(Lookup(data, "connection_name")) && Truthy(Lookup(data, "action"));
    } else if route != ListConnections {
      assert RouteFieldsPresent(route, data) <==>
        Truthy(Lookup(data, "instance_name")) && Truthy(Lookup(data, fields[1]));
    }
  }

  /** manage_processor builds its base URL before it looks at the action. */
  lemma ManageProcessorFollowsTable(body: Value)
    requires Gated(body)
    ensures AgreesWithTable(ManageProcessor, body)
  {
    var data := body.fields;
    var fields := RequiredFields(ManageProcessor);
    assert fields[0] == "instance_name" && fields[1] == "processor_name" && fields[2] == "action";
    var present := Truthy(Lookup(data, "instance_name")) && Truthy(Lookup(data, "processor_name"))
                   && Truthy(Lookup(data, "action"));
    assert RouteFieldsPresent(ManageProcessor, data) <==> present;
    if present && "atlas_host" in data {
      var action := Lookup(data, "action");
      var base := Groups(data["atlas_host"], data["project_id"])
        + [Lit("/streams/"), Hole(Lookup(data, "instance_name")), Lit("/processor/"), Hole(Lookup(data, "processor_name"))];
      if action == Str("start") {
        assert Dispatch(ManageProcessor, data).value.url == base + [Lit(":start")];
      } else if action == Str("stop") {
        assert Dispatch(ManageProcessor, data).value.url == base + [Lit(":stop")];
      } else if action == Str("delete") {
        assert Dispatch(ManageProcessor, data).value.url == base;
      }
    }
  }

  // ---------------------------------------------------------------------
  // The URL as text. An f-string applies str() to each interpolated value
  // and escapes nothing.

  predicate PrintableUrl(url: Url) {
    url == [] || ((url[0].Lit? || Printable(url[0].value)) && PrintableUrl(url[1..]))
  }

  function PieceText(piece: Piece): string
    requires piece.Lit? || Printable(piece.value)
  {
    match piece
    case Lit(t) => t
    case Hole(v) => Text(v)
  }

  function Render(url: Url): string
    requires PrintableUrl(url)
  {
    if url == [] then "" else PieceText(url[0]) + Render(url[1..])
  }

  /** Rendering distributes over the concatenation of templates. */
  lemma {:induction false} RenderAppend(a: Url, b: Url)
    requires PrintableUrl(a) && PrintableUrl(b)
    ensures PrintableUrl(a + b) && Render(a + b) == Render(a) + Render(b)
  {
    if a != [] {
      RenderAppend(a[1..], b);
      assert (a + b)[0] == a[0];
      assert (a + b)[1..] == a[1..] + b;
    } else {
      assert a + b == b;
    }
  }

  /** The text of a table path with string identifiers in its placeholders. */
  function PathText(path: seq<Segment>, instance: string, name: string): string {
    if path == [] then ""
    else
      var head := match path[0]
        case Fixed(t) => t
        case Param(InstanceSlot) => instance
        case Param(NameSlot) => name;
      head + PathText(path[1..], instance, name)
  }

  /** Filling a path with strings and rendering it gives the path's text
      with the strings in place, unchanged. */
  lemma {:induction false} RenderInstantiate(path: seq<Segment>, instance: string, name: string)
    ensures PrintableUrl(Instantiate(path, Str(instance), Str(name)))
    ensures Render(Instantiate(path, Str(instance), Str(name))) == PathText(path, instance, name)
  {
    var url := Instantiate(path, Str(instance), Str(name));
    if path != [] {
      assert url[1..] == Instantiate(path[1..], Str(instance), Str(name));
      RenderInstantiate(path[1..], instance, name);
    }
  }

  lemma RenderGroups(host: string, project: string)
    ensures PrintableUrl(Groups(Str(host), Str(project)))
    ensures Render(Groups(Str(host), Str(project))) == "https://" + host + "/api/atlas/v2/groups/" + project
  {
    var prefix := Groups(Str(host), Str(project));
    assert Render(prefix[3..]) == project;
    assert Render(prefix[2..]) == "/api/atlas/v2/groups/" + project;
    assert Render(prefix[1..]) == host + "/api/atlas/v2/groups/" + project;
  }

  /** With string identifiers the URL of every forwarded request is
      `https://{host}/api/atlas/v2/groups/{project}` followed by the table's
      path, each identifier copied in verbatim: nothing is escaped, so a
      name holding '/', '?' or '#' changes the path the upstream sees. */
  lemma RenderedUrl(route: Route, body: Value, host: string, project: string, instance: string, name: string)
    requires Resolve(route, body).Success?
    requires body.fields["atlas_host"] == Str(host) && body.fields["project_id"] == Str(project)
    requires UsesInstance(route) ==> Lookup(body.fields, "instance_name") == Str(instance)
    requires UsesName(route) ==> Lookup(body.fields, NameField(ResourceOf(route))) == Str(name)
    ensures PrintableUrl(Resolve(route, body).value.url)
    ensures var intent := Intent(route, Lookup(body.fields, "action")).value;
            && Endpoints(intent.0, intent.1).Some?
            && Render(Resolve(route, body).value.url)
               == "https://" + host + "/api/atlas/v2/groups/" + project
                  + PathText(Endpoints(intent.0, intent.1).value.path, instance, name)
  {
    var call := Resolve(route, body).value;
    assert Admissible(route, body) && call == TableCall(route, body);
    TableUrlText(route, body, host, project, instance, name);
  }

  /** The routes whose URL holds the instance name: all but create_spi and
      list_spis. */
  predicate UsesInstance(route: Route) {
    route != CreateSpi && route != ListSpis
  }

  /** The routes whose URL holds a processor or connection name: the stats,
      details and management routes. */
  predicate UsesName(route: Route) {
    route in {ManageProcessor, GetProcessorStats, GetConnectionDetails, ManageConnection}
  }

  /** A path without placeholders does not depend on the values offered. */
  lemma InstantiateFixed(path: seq<Segment>, instance1: Value, name1: Value, instance2: Value, name2: Value)
    requires forall k :: 0 <= k < |path| ==> path[k].Fixed?
    ensures Instantiate(path, instance1, name1) == Instantiate(path, instance2, name2)
  {
  }

  /** A path without a name placeholder does not depend on the name offered. */
  lemma InstantiateWithoutName(path: seq<Segment>, instance: Value, name1: Value, name2: Value)
    requires forall k :: 0 <= k < |path| ==> path[k] != Param(NameSlot)
    ensures Instantiate(path, instance, name1) == Instantiate(path, instance, name2)
  {
  }

  /** Filling a route's path reads only the identifiers the route uses. */
  lemma FillUsedOnly(route: Route, action: Value, instance1: Value, name1: Value, instance2: Value, name2: Value)
    requires Intent(route, action).Some?
    requires UsesInstance(route) ==> instance1 == instance2
    requires UsesName(route) ==> name1 == name2
    ensures var intent := Intent(route, action).value;
            && intent.0 == ResourceOf(route)
            && Endpoints(intent.0, intent.1).Some?
            && Instantiate(Endpoints(intent.0, intent.1).value.path, instance1, name1)
               == Instantiate(Endpoints(intent.0, intent.1).value.path, instance2, name2)
  {
    var intent := Intent(route, action).value;
    IntentHasEndpoint(route, action);
    var path := Endpoints(intent.0, intent.1).value.path;
    if !UsesInstance(route) {
      // create_spi and list_spis use /streams: no placeholder at all.
      InstantiateFixed(path, instance1, name1, instance2, name2);
    } else if !UsesName(route) {
      // Lists, creates and delete_spi have no name placeholder.
      InstantiateWithoutName(path, instance1, name1, name2);
    }
  }

  lemma TableUrlText(route: Route, body: Value, host: string, project: string, instance: string, name: string)
    requires Admissible(route, body)
    requires body.fields["atlas_host"] == Str(host) && body.fields["project_id"] == Str(project)
    requires UsesInstance(route) ==> Lookup(body.fields, "instance_name") == Str(instance)
    requires UsesName(route) ==> Lookup(body.fields, NameField(ResourceOf(route))) == Str(name)
    ensures PrintableUrl(TableCall(route, body).url)
    ensures var intent := Intent(route, Lookup(body.fields, "action")).value;
            && Endpoints(intent.0, intent.1).Some?
            && Render(TableCall(route, body).url)
               == "https://" + host + "/api/atlas/v2/groups/" + project
                  + PathText(Endpoints(intent.0, intent.1).value.path, instance, name)
  {
    var data := body.fields;
    var action := Lookup(data, "action");
    var intent := Intent(route, action).value;
    var instanceValue, nameValue := Lookup(data, "instance_name"), Lookup(data, NameField(intent.0));
    FillUsedOnly(route, action, instanceValue, nameValue, Str(instance), Str(name));
    var ep := Endpoints(intent.0, intent.1).value;
    RenderGroups(host, project);
    RenderInstantiate(ep.path, instance, name);
    RenderAppend(Groups(Str(host), Str(project)), Instantiate(ep.path, instanceValue, nameValue));
  }

  /** A request to start processor p1 on instance i1. */
  const StartP1: Value := Object(map[
    "public_key" := Str("pk"), "private_key" := Str("sk"), "project_id" := Str("g1"),
    "atlas_host" := Str(DefaultAtlasHost), "instance_name" := Str("i1"),
    "processor_name" := Str("p1"), "action" := Str("start")])

  /** Starting processor p1 on instance i1 posts to a URL that ends exactly
      in `/processor/p1:start`: the colon suffix is appended to the name, not
      added as a path segment, and nothing is encoded. */
  lemma ProcessorStartExample()
    ensures Resolve(ManageProcessor, StartP1).Success?
    ensures var call := Resolve(ManageProcessor, StartP1).value;
            && call.verb == POST && PrintableUrl(call.url)
            && var text, suffix := Render(call.url), "/processor/" + "p1" + ":start";
            && |text| >= |suffix| && text[|text| - |suffix|..] == suffix
  {
    StartP1Resolves();
    StartPathText();
    var text := Render(Resolve(ManageProcessor, StartP1).value.url);
    var head := "https://" + DefaultAtlasHost + "/api/atlas/v2/groups/" + "g1" + "/streams/" + "i1";
    var suffix := "/processor/" + "p1" + ":start";
    assert text == head + suffix;
    assert text[|head|..] == suffix;
  }

  lemma StartP1Resolves()
    ensures Resolve(ManageProcessor, StartP1).Success?
    ensures var call := Resolve(ManageProcessor, StartP1).value;
            && call.verb == POST && PrintableUrl(call.url)
            && Render(call.url) == "https://" + DefaultAtlasHost + "/api/atlas/v2/groups/" + "g1"
                                   + PathText(Endpoints(Processor, Start).value.path, "i1", "p1")
  {
    var fields := RequiredFields(ManageProcessor);
    assert fields[0] == "instance_name" && fields[1] == "processor_name" && fields[2] == "action";
    assert "action" in StartP1.fields;
    assert Admissible(ManageProcessor, StartP1);
    RenderedUrl(ManageProcessor, StartP1, DefaultAtlasHost, "g1", "i1", "p1");
    assert Intent(ManageProcessor, Lookup(StartP1.fields, "action")) == Some((Processor, Start));
  }

  lemma StartPathText()
    ensures PathText(Endpoints(Processor, Start).value.path, "i1", "p1") == ("/streams/" + "i1") + ("/processor/" + "p1" + ":start")
  {
    var path := Endpoints(Processor, Start).value.path;
    assert path == [Fixed("/streams/"), Param(InstanceSlot), Fixed("/processor/"), Param(NameSlot), Fixed(":start")];
    assert PathText(path[4..], "i1", "p1") == ":start";
    assert PathText(path[3..], "i1", "p1") == "p1" + ":start";
    assert PathText(path[2..], "i1", "p1") == "/processor/" + "p1" + ":start";
    assert PathText(path[1..], "i1", "p1") == "i1" + "/processor/" + "p1" + ":start";
  }
}
