/** Reading and changing one IP address (ipaddress.go). Every one of these
    callers hands a non-nil error to log.Fatal, which ends the process, so a
    call either returns with a response or never returns. */
module IPAddress {
  import opened Wrappers
  import opened GoLib
  import opened Cherrygo
  import opened Endpoints
  import IPAddresses

  datatype CreateIPAddress = CreateIPAddress(
    ipType: string, region: string, ptrRecord: string, aRecord: string, routedTo: string, assignedTo: string)

  datatype UpdateIPAddress = UpdateIPAddress(ptrRecord: string, aRecord: string, routedTo: string, assignedTo: string)

  datatype RemoveIPAddress = RemoveIPAddress(id: string)

  /** A call that returns its variable and response, or a process that
      logged the error and exited. */
  datatype LogFatal<T> = Ok(value: T, response: Response) | Exited(logged: string)

  /** The caller's tail around log.Fatal. */
  function Run<T>(c: ClientConfig, call: Call<T>, be: Backend, zero: T): (r: LogFatal<T>)
    ensures var out := MakeRequest(c, call, be);
      (r.Exited? <==> out.err.Some?) &&
      (r.Exited? ==> r.logged == out.err.value) &&
      (r.Ok? ==> out.response == Some(r.response) && !IsErrorStatus(r.response.status)) &&
      (r.Ok? && out.delivered.Decoded? ==> r.value == out.delivered.value) &&
      (r.Ok? && !out.delivered.Decoded? ==> r.value == zero)
  {
    var out := MakeRequest(c, call, be);
    if out.err.Some? then Exited(out.err.value)
    else Ok(if out.delivered.Decoded? then out.delivered.value else zero, out.response.value)
  }

  /** A call that returns did so because the transport answered this
      request with a status below 299. */
  predicate ReturnedFrom<T>(c: ClientConfig, verb: Method, path: string, body: Bytes, be: Backend, r: LogFatal<T>)
  {
    r.Ok? ==> AnsweredBy(c, verb, path, body, be, Some(r.response)) && !IsErrorStatus(r.response.status)
  }

  lemma RunGuarantees<T>(c: ClientConfig, call: Call<T>, be: Backend, zero: T)
    ensures ReturnedFrom(c, call.verb, call.path, Buffered(call.body), be, Run(c, call, be, zero))
  {
  }

  /** The address collection of a project: the base, the decimal project ID
      and "ips", which is the listing path for the same project. */
  function CollectionPath(projectID: int): (path: string)
    ensures path == IPAddresses.ListPath(Itoa(projectID))
  {
    Join([IPAddresses.BaseIPSPath, Itoa(projectID), IPAddresses.EndIPSPath], "/")
  }

  /** One address: the collection path, a slash and the address ID, unescaped. */
  function ItemPath(projectID: int, ipID: string): (path: string)
    ensures path == CollectionPath(projectID) + "/" + ipID
  {
    var parts := [IPAddresses.BaseIPSPath, Itoa(projectID), IPAddresses.EndIPSPath];
    JoinSnoc(parts, ipID, "/");
    assert parts + [ipID] == [IPAddresses.BaseIPSPath, Itoa(projectID), IPAddresses.EndIPSPath, ipID];
    Join([IPAddresses.BaseIPSPath, Itoa(projectID), IPAddresses.EndIPSPath, ipID], "/")
  }

  /** The item path spelled out. */
  lemma ItemPathShape(projectID: int, ipID: string)
    ensures ItemPath(projectID, ipID) == "/v1/projects/" + Itoa(projectID) + "/ips/" + ipID
  {
    var head := "/v1/projects/" + Itoa(projectID);
    assert head + "/ips" + "/" + ipID == head + "/ips/" + ipID;
  }

  lemma ItemPathRegrouped(p: int, a: string)
    ensures ItemPath(p, a) == "/v1/projects/" + (Itoa(p) + "/" + ("ips/" + a))
  {
    ItemPathShape(p, a);
    var ip := Itoa(p);
    assert "/v1/projects/" + ip + "/ips/" + a == "/v1/projects/" + (ip + "/" + ("ips/" + a));
  }

  /** Different (project, address) pairs give different paths. */
  lemma ItemPathInjective(p: int, a: string, q: int, b: string)
    requires ItemPath(p, a) == ItemPath(q, b)
    ensures p == q && a == b
  {
    ItemPathRegrouped(p, a);
    ItemPathRegrouped(q, b);
    CancelPrefix("/v1/projects/", Itoa(p) + "/" + ("ips/" + a), Itoa(q) + "/" + ("ips/" + b));
    SplitAtFirstSlash(Itoa(p), "ips/" + a, Itoa(q), "ips/" + b);
    CancelPrefix("ips/", a, b);
    ItoaInjective(p, q);
  }

  /** List: GET on one address, decoded into it. */
  function List(c: ClientConfig, be: Backend, projectID: int, ipID: string,
                decode: Stream -> (IPAddresses.IPAddress, Option<string>)): (r: LogFatal<IPAddresses.IPAddress>)
    ensures r == Run(c, Call(GET, "/v1/projects/" + Itoa(projectID) + "/ips/" + ipID, NoPayload, JsonInto(decode)),
                     be, IPAddresses.ZeroIPAddress)
    ensures ReturnedFrom(c, GET, "/v1/projects/" + Itoa(projectID) + "/ips/" + ipID, [], be, r)
    ensures r.Ok? ==> r.value == decode(be.transport(BuildRequest(c, GET, "/v1/projects/" + Itoa(projectID) + "/ips/" + ipID, [])).body).0
  {
    var call := Call(GET, ItemPath(projectID, ipID), NoPayload, JsonInto(decode));
    ItemPathShape(projectID, ipID);
    RunGuarantees(c, call, be, IPAddresses.ZeroIPAddress);
    Run(c, call, be, IPAddresses.ZeroIPAddress)
  }

  /** Create: POST of the request to the project's collection. */
  function Create(c: ClientConfig, be: Backend, projectID: int, request: CreateIPAddress,
                  encode: CreateIPAddress -> Payload,
                  decode: Stream -> (IPAddresses.IPAddress, Option<string>)): (r: LogFatal<IPAddresses.IPAddress>)
    ensures r == Run(c, Call(POST, "/v1/projects/" + Itoa(projectID) + "/ips", encode(request), JsonInto(decode)),
                     be, IPAddresses.ZeroIPAddress)
    ensures ReturnedFrom(c, POST, "/v1/projects/" + Itoa(projectID) + "/ips", Buffered(encode(request)), be, r)
    ensures encode(request).Unencodable? ==> r == Exited(encode(request).err)
  {
    var call := Call(POST, CollectionPath(projectID), encode(request), JsonInto(decode));
    RunGuarantees(c, call, be, IPAddresses.ZeroIPAddress);
    Run(c, call, be, IPAddresses.ZeroIPAddress)
  }

  /** Update: PUT of the request to the address. */
  function Update(c: ClientConfig, be: Backend, projectID: int, ipID: string, request: UpdateIPAddress,
                  encode: UpdateIPAddress -> Payload,
                  decode: Stream -> (IPAddresses.IPAddress, Option<string>)): (r: LogFatal<IPAddresses.IPAddress>)
    ensures r == Run(c, Call(PUT, "/v1/projects/" + Itoa(projectID) + "/ips/" + ipID, encode(request), JsonInto(decode)),
                     be, IPAddresses.ZeroIPAddress)
    ensures ReturnedFrom(c, PUT, "/v1/projects/" + Itoa(projectID) + "/ips/" + ipID, Buffered(encode(request)), be, r)
    ensures encode(request).Unencodable? ==> r == Exited(encode(request).err)
  {
    var call := Call(PUT, ItemPath(projectID, ipID), encode(request), JsonInto(decode));
    ItemPathShape(projectID, ipID);
    RunGuarantees(c, call, be, IPAddresses.ZeroIPAddress);
    Run(c, call, be, IPAddresses.ZeroIPAddress)
  }

  /** Remove: DELETE on the address named inside the request, with the
      request as body. */
  function Remove(c: ClientConfig, be: Backend, projectID: int, request: RemoveIPAddress,
                  encode: RemoveIPAddress -> Payload,
                  decode: Stream -> (IPAddresses.IPAddress, Option<string>)): (r: LogFatal<IPAddresses.IPAddress>)
    ensures r == Run(c, Call(DELETE, "/v1/projects/" + Itoa(projectID) + "/ips/" + request.id, encode(request), JsonInto(decode)),
                     be, IPAddresses.ZeroIPAddress)
    ensures ReturnedFrom(c, DELETE, "/v1/projects/" + Itoa(projectID) + "/ips/" + request.id, Buffered(encode(request)), be, r)
    ensures encode(request).Unencodable? ==> r == Exited(encode(request).err)
  {
    var call := Call(DELETE, ItemPath(projectID, request.id), encode(request), JsonInto(decode));
    ItemPathShape(projectID, request.id);
    RunGuarantees(c, call, be, IPAddresses.ZeroIPAddress);
    Run(c, call, be, IPAddresses.ZeroIPAddress)
  }

  /** A removal answered with 204 No Content returns without decoding: the
      caller gets the zero address and the response. */
  lemma RemoveNoContent(c: ClientConfig, be: Backend, projectID: int, request: RemoveIPAddress,
                        encode: RemoveIPAddress -> Payload, decode: Stream -> (IPAddresses.IPAddress, Option<string>))
    requires !encode(request).Unencodable?
    requires var reply := be.transport(BuildRequest(c, DELETE, ItemPath(projectID, request.id), Buffered(encode(request))));
      reply.Received? && reply.status == 204
    ensures var r := Remove(c, be, projectID, request, encode, decode);
      r.Ok? && r.value == IPAddresses.ZeroIPAddress && r.response.status == 204
  {
    DeleteNoContent(c, Call(DELETE, ItemPath(projectID, request.id), encode(request), JsonInto(decode)), be);
  }
}
