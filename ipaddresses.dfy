/** Listing a project's IP addresses (ipaddresses.go). */
module IPAddresses {
  import opened Wrappers
  import opened GoLib
  import opened Cherrygo
  import opened Endpoints

  const BaseIPSPath := "/v1/projects"
  const EndIPSPath := "ips"

  /** An IP address as the API reports it; the nested region, routing,
      assignment and project records are not part of this model. */
  datatype IPAddress = IPAddress(
    id: string, address: string, addressFamily: int, cidr: string, gateway: string, ipType: string,
    ptrRecord: string, aRecord: string, tags: map<string, string>, href: string)

  /** The value of a freshly declared IPAddresses variable. */
  const ZeroIPAddress := IPAddress("", "", 0, "", "", "", "", "", map[], "")

  /** strings.Join of the base, the project ID and "ips" with slashes. */
  function ListPath(projectID: string): (path: string)
    ensures path == "/v1/projects/" + projectID + "/ips"
  {
    JoinTriple(BaseIPSPath, projectID, EndIPSPath, "/");
    assert BaseIPSPath + "/" == "/v1/projects/" && "/" + EndIPSPath == "/ips";
    assert BaseIPSPath + "/" + projectID + "/" + EndIPSPath == (BaseIPSPath + "/") + projectID + ("/" + EndIPSPath);
    Join([BaseIPSPath, projectID, EndIPSPath], "/")
  }

  /** List: GET on the project's addresses, decoded into a list. */
  function List(c: ClientConfig, be: Backend, projectID: string,
                decode: Stream -> (seq<IPAddress>, Option<string>)): (r: Returned<seq<IPAddress>>)
    ensures r == Finish([], MakeRequest(c, Call(GET, "/v1/projects/" + projectID + "/ips", NoPayload, JsonInto(decode)), be))
    ensures CallerResult(c, GET, "/v1/projects/" + projectID + "/ips", [], be, [], r)
  {
    var call := Call(GET, ListPath(projectID), NoPayload, JsonInto(decode));
    FinishGuarantees(c, call, be, []);
    Finish([], MakeRequest(c, call, be))
  }

  /** A body that does not decode still hands back what the decoder produced,
      together with the response and the decoder's error rewrapped. */
  lemma UndecodableListKeepsPartialResult(c: ClientConfig, be: Backend, projectID: string,
                                          decode: Stream -> (seq<IPAddress>, Option<string>))
    requires var reply := be.transport(BuildRequest(c, GET, ListPath(projectID), []));
      reply.Received? && !IsErrorStatus(reply.status) && decode(reply.body).1.Some?
    ensures var reply := be.transport(BuildRequest(c, GET, ListPath(projectID), []));
      List(c, be, projectID, decode) ==
        Returned(decode(reply.body).0, Some(Response(reply.status, reply.header, PopulateTotal(reply.header))),
                 Some("Error: " + decode(reply.body).1.value))
  {
    SuccessDispatch(c, Call(GET, ListPath(projectID), NoPayload, JsonInto(decode)), be);
  }
}
