/** The storage endpoints with integer identifiers, formatted into the path
    in decimal (storages.go). */
module Storages {
  import opened Wrappers
  import opened GoLib
  import opened Cherrygo
  import opened Endpoints
  import opened Storage

  /** baseProjectPath, the prefix of every path formatted below (declared in
      projects.go). */
  const BaseProjectPath := "/v1/teams"

  datatype CreateStorage = CreateStorage(projectID: int, description: string, size: int, region: string)

  datatype DeleteStorage = DeleteStorage(projectID: int, storageID: int)

  datatype AttachTo = AttachTo(projectID: int, storageID: int, attachTo: int)

  datatype DetachFrom = DetachFrom(projectID: int, storageID: int)

  /** "%s/%d/storages": %d renders the project ID as strconv.Itoa does. */
  function ProjectStoragesPath(projectID: int): (path: string)
    ensures path == "/v1/teams/" + Itoa(projectID) + "/storages"
  {
    assert BaseProjectPath + "/" == "/v1/teams/";
    BaseProjectPath + "/" + Itoa(projectID) + "/storages"
  }

  /** "%s/%d/storages/%d": one storage, under its project's storages. */
  function StoragePath(projectID: int, storageID: int): (path: string)
    ensures path == ProjectStoragesPath(projectID) + "/" + Itoa(storageID)
  {
    BaseProjectPath + "/" + Itoa(projectID) + "/storages/" + Itoa(storageID)
  }

  /** "%s/%d/storages/%d/attachments": a storage's attachments. */
  function AttachmentsPath(projectID: int, storageID: int): (path: string)
    ensures path == StoragePath(projectID, storageID) + "/attachments"
  {
    BaseProjectPath + "/" + Itoa(projectID) + "/storages/" + Itoa(storageID) + "/attachments"
  }

  /** The storage and attachments paths spelled out. */
  lemma PathShapes(projectID: int, storageID: int)
    ensures StoragePath(projectID, storageID) == "/v1/teams/" + Itoa(projectID) + "/storages/" + Itoa(storageID)
    ensures AttachmentsPath(projectID, storageID) == "/v1/teams/" + Itoa(projectID) + "/storages/" + Itoa(storageID) + "/attachments"
  {
    var head := "/v1/teams/" + Itoa(projectID);
    assert head + "/storages" + "/" + Itoa(storageID) == head + "/storages/" + Itoa(storageID);
  }

  /** A storage path regrouped as the base, then the project's decimal ID,
      then the rest. */
  lemma StoragePathRegrouped(p: int, s: int)
    ensures StoragePath(p, s) == (BaseProjectPath + "/") + (Itoa(p) + "/" + ("storages/" + Itoa(s)))
  {
    var ip, sp := Itoa(p), Itoa(s);
    assert BaseProjectPath + "/" + ip + "/storages/" + sp == (BaseProjectPath + "/") + (ip + "/" + ("storages/" + sp));
  }

  /** Distinct (project, storage) pairs address distinct storages: decimal
      rendering never yields a slash, so the path splits back into its IDs. */
  lemma StoragePathInjective(p: int, s: int, q: int, t: int)
    requires StoragePath(p, s) == StoragePath(q, t)
    ensures p == q && s == t
  {
    StoragePathRegrouped(p, s);
    StoragePathRegrouped(q, t);
    CancelPrefix(BaseProjectPath + "/", Itoa(p) + "/" + ("storages/" + Itoa(s)), Itoa(q) + "/" + ("storages/" + Itoa(t)));
    SplitAtFirstSlash(Itoa(p), "storages/" + Itoa(s), Itoa(q), "storages/" + Itoa(t));
    CancelPrefix("storages/", Itoa(s), Itoa(t));
    ItoaInjective(p, q);
    ItoaInjective(s, t);
  }

  /** List: GET on the project's storages (with the options' query added),
      decoded into a list. */
  function List(c: ClientConfig, be: Backend, projectID: int, withQuery: string -> string,
                decode: Stream -> (seq<BlockStorage>, Option<string>)): (r: Returned<seq<BlockStorage>>)
    ensures r == Finish([], MakeRequest(c,
      Call(GET, withQuery("/v1/teams/" + Itoa(projectID) + "/storages"), NoPayload, JsonInto(decode)), be))
    ensures CallerResult(c, GET, withQuery("/v1/teams/" + Itoa(projectID) + "/storages"), [], be, [], r)
  {
    var call := Call(GET, withQuery(ProjectStoragesPath(projectID)), NoPayload, JsonInto(decode));
    FinishGuarantees(c, call, be, []);
    Finish([], MakeRequest(c, call, be))
  }

  /** Get: GET on one storage, decoded into a BlockStorage. */
  function Get(c: ClientConfig, be: Backend, projectID: int, storageID: int, withQuery: string -> string,
               decode: Stream -> (BlockStorage, Option<string>)): (r: Returned<BlockStorage>)
    ensures r == Finish(ZeroBlockStorage, MakeRequest(c,
      Call(GET, withQuery("/v1/teams/" + Itoa(projectID) + "/storages/" + Itoa(storageID)), NoPayload, JsonInto(decode)), be))
    ensures CallerResult(c, GET, withQuery("/v1/teams/" + Itoa(projectID) + "/storages/" + Itoa(storageID)), [],
                         be, ZeroBlockStorage, r)
  {
    var call := Call(GET, withQuery(StoragePath(projectID, storageID)), NoPayload, JsonInto(decode));
    PathShapes(projectID, storageID);
    FinishGuarantees(c, call, be, ZeroBlockStorage);
    Finish(ZeroBlockStorage, MakeRequest(c, call, be))
  }

  /** Create: POST of the request to the project's storages. */
  function Create(c: ClientConfig, be: Backend, request: CreateStorage,
                  encode: CreateStorage -> Payload, decode: Stream -> (BlockStorage, Option<string>)): (r: Returned<BlockStorage>)
    ensures r == Finish(ZeroBlockStorage, MakeRequest(c,
      Call(POST, "/v1/teams/" + Itoa(request.projectID) + "/storages", encode(request), JsonInto(decode)), be))
    ensures CallerResult(c, POST, "/v1/teams/" + Itoa(request.projectID) + "/storages", Buffered(encode(request)),
                         be, ZeroBlockStorage, r)
    ensures encode(request).Unencodable? ==>
      r == Returned(ZeroBlockStorage, None, Some("Error: " + encode(request).err))
  {
    var call := Call(POST, ProjectStoragesPath(request.projectID), encode(request), JsonInto(decode));
    FinishGuarantees(c, call, be, ZeroBlockStorage);
    Finish(ZeroBlockStorage, MakeRequest(c, call, be))
  }

  /** Delete: DELETE on the storage, with the request as body and no
      destination. */
  function Delete(c: ClientConfig, be: Backend, request: DeleteStorage, encode: DeleteStorage -> Payload): (r: Answer)
    ensures r == Answered(MakeRequest<()>(c,
      Call(DELETE, "/v1/teams/" + Itoa(request.projectID) + "/storages/" + Itoa(request.storageID), encode(request), NoTarget), be))
    ensures CallerAnswer(c, DELETE, "/v1/teams/" + Itoa(request.projectID) + "/storages/" + Itoa(request.storageID),
                         Buffered(encode(request)), be, r)
  {
    var call: Call<()> := Call(DELETE, StoragePath(request.projectID, request.storageID), encode(request), NoTarget);
    PathShapes(request.projectID, request.storageID);
    AnsweredGuarantees(c, call, be);
    Answered(MakeRequest(c, call, be))
  }

  /** Attach: POST of the request to the storage's attachments. */
  function Attach(c: ClientConfig, be: Backend, request: AttachTo,
                  encode: AttachTo -> Payload, decode: Stream -> (BlockStorage, Option<string>)): (r: Returned<BlockStorage>)
    ensures r == Finish(ZeroBlockStorage, MakeRequest(c,
      Call(POST, "/v1/teams/" + Itoa(request.projectID) + "/storages/" + Itoa(request.storageID) + "/attachments",
           encode(request), JsonInto(decode)), be))
    ensures CallerResult(c, POST, "/v1/teams/" + Itoa(request.projectID) + "/storages/" + Itoa(request.storageID) + "/attachments",
                         Buffered(encode(request)), be, ZeroBlockStorage, r)
  {
    var call := Call(POST, AttachmentsPath(request.projectID, request.storageID), encode(request), JsonInto(decode));
    PathShapes(request.projectID, request.storageID);
    FinishGuarantees(c, call, be, ZeroBlockStorage);
    Finish(ZeroBlockStorage, MakeRequest(c, call, be))
  }

  /** Detach: DELETE on the storage's attachments with no body and no
      destination. */
  function Detach(c: ClientConfig, be: Backend, request: DetachFrom): (r: Answer)
    ensures r == Answered(MakeRequest<()>(c,
      Call(DELETE, "/v1/teams/" + Itoa(request.projectID) + "/storages/" + Itoa(request.storageID) + "/attachments",
           NoPayload, NoTarget), be))
    ensures CallerAnswer(c, DELETE, "/v1/teams/" + Itoa(request.projectID) + "/storages/" + Itoa(request.storageID) + "/attachments",
                         [], be, r)
  {
    var call: Call<()> := Call(DELETE, AttachmentsPath(request.projectID, request.storageID), NoPayload, NoTarget);
    PathShapes(request.projectID, request.storageID);
    AnsweredGuarantees(c, call, be);
    Answered(MakeRequest(c, call, be))
  }
}
