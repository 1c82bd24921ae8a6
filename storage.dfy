/** The storage endpoints with string identifiers, inserted into the path as
    they are (storage.go). */
module Storage {
  import opened Wrappers
  import opened GoLib
  import opened Cherrygo
  import opened Endpoints

  /** baseStoragePath is "/v1/projects/%s/storages": the text on either side
      of its one verb. */
  const BaseStorageHead := "/v1/projects/"
  const BaseStorageTail := "/storages"

  datatype AttachedTo = AttachedTo(href: string)

  datatype BlockStorage = BlockStorage(
    id: int, name: string, href: string, size: int, allowEditSize: bool, unit: string,
    description: string, attachedTo: AttachedTo, vlanID: string, vlanIP: string,
    initiator: string, discoveryIP: string)

  /** The value of a freshly declared BlockStorage variable. */
  const ZeroBlockStorage := BlockStorage(0, "", "", 0, false, "", "", AttachedTo(""), "", "", "", "")

  datatype CreateStorage = CreateStorage(projectID: string, description: string, size: int, region: string)

  datatype DeleteStorage = DeleteStorage(projectID: string, storageID: string)

  datatype AttachTo = AttachTo(projectID: string, storageID: string, attachTo: int)

  datatype DetachFrom = DetachFrom(projectID: string, storageID: string)

  /** fmt.Sprintf(baseStoragePath, projectID): %s inserts the ID unescaped. */
  function ProjectStoragesPath(projectID: string): (path: string)
    ensures path == "/v1/projects/" + projectID + "/storages"
  {
    BaseStorageHead + projectID + BaseStorageTail
  }

  /** One storage: the project's storages, a slash and the storage ID. */
  function StoragePath(projectID: string, storageID: string): (path: string)
    ensures path == ProjectStoragesPath(projectID) + "/" + storageID
  {
    JoinPair(ProjectStoragesPath(projectID), storageID, "/");
    Join([ProjectStoragesPath(projectID), storageID], "/")
  }

  /** A storage's attachments: the storage's path and "attachments". */
  function AttachmentsPath(projectID: string, storageID: string): (path: string)
    ensures path == StoragePath(projectID, storageID) + "/attachments"
  {
    JoinTriple(ProjectStoragesPath(projectID), storageID, "attachments", "/");
    JoinPair(ProjectStoragesPath(projectID), storageID, "/");
    Join([ProjectStoragesPath(projectID), storageID, "attachments"], "/")
  }

  /** The storage and attachments paths spelled out, as the library's tests
      pin them down. */
  lemma PathShapes(projectID: string, storageID: string)
    ensures StoragePath(projectID, storageID) == "/v1/projects/" + projectID + "/storages/" + storageID
    ensures AttachmentsPath(projectID, storageID) == "/v1/projects/" + projectID + "/storages/" + storageID + "/attachments"
  {
    var head := "/v1/projects/" + projectID;
    assert head + "/storages" + "/" + storageID == head + "/storages/" + storageID;
  }

  /** Because identifiers are not escaped, a storage ID holding a slash
      addresses another resource: deleting storage "1/attachments" hits the
      path that detaches storage "1". */
  lemma UnescapedIdsCollide(projectID: string)
    ensures StoragePath(projectID, "1/attachments") == AttachmentsPath(projectID, "1")
  {
    var head := ProjectStoragesPath(projectID) + "/";
    assert head + "1/attachments" == head + "1" + "/attachments";
  }

  /** List: GET on the storage's path (with the options' query added),
      decoded into a BlockStorage. */
  function List(c: ClientConfig, be: Backend, projectID: string, storageID: string,
                withQuery: string -> string, decode: Stream -> (BlockStorage, Option<string>)): (r: Returned<BlockStorage>)
    ensures r == Finish(ZeroBlockStorage, MakeRequest(c,
      Call(GET, withQuery("/v1/projects/" + projectID + "/storages/" + storageID), NoPayload, JsonInto(decode)), be))
    ensures CallerResult(c, GET, withQuery("/v1/projects/" + projectID + "/storages/" + storageID), [], be, ZeroBlockStorage, r)
  {
    var call := Call(GET, withQuery(StoragePath(projectID, storageID)), NoPayload, JsonInto(decode));
    PathShapes(projectID, storageID);
    FinishGuarantees(c, call, be, ZeroBlockStorage);
    Finish(ZeroBlockStorage, MakeRequest(c, call, be))
  }

  /** Create: POST of the request to the project's storages. */
  function Create(c: ClientConfig, be: Backend, request: CreateStorage,
                  encode: CreateStorage -> Payload, decode: Stream -> (BlockStorage, Option<string>)): (r: Returned<BlockStorage>)
    ensures r == Finish(ZeroBlockStorage, MakeRequest(c,
      Call(POST, "/v1/projects/" + request.projectID + "/storages", encode(request), JsonInto(decode)), be))
    ensures CallerResult(c, POST, "/v1/projects/" + request.projectID + "/storages", Buffered(encode(request)), be, ZeroBlockStorage, r)
    ensures encode(request).Unencodable? ==>
      r == Returned(ZeroBlockStorage, None, Some("Error: " + encode(request).err))
  {
    var call := Call(POST, ProjectStoragesPath(request.projectID), encode(request), JsonInto(decode));
    FinishGuarantees(c, call, be, ZeroBlockStorage);
    Finish(ZeroBlockStorage, MakeRequest(c, call, be))
  }

  /** Delete: DELETE on the storage's path, with the request as body and no
      destination. */
  function Delete(c: ClientConfig, be: Backend, request: DeleteStorage, encode: DeleteStorage -> Payload): (r: Answer)
    ensures r == Answered(MakeRequest<()>(c,
      Call(DELETE, "/v1/projects/" + request.projectID + "/storages/" + request.storageID, encode(request), NoTarget), be))
    ensures CallerAnswer(c, DELETE, "/v1/projects/" + request.projectID + "/storages/" + request.storageID,
                         Buffered(encode(request)), be, r)
  {
    var call: Call<()> := Call(DELETE, StoragePath(request.projectID, request.storageID), encode(request), NoTarget);
    PathShapes(request.projectID, request.storageID);
    AnsweredGuarantees(c, call, be);
    Answered(MakeRequest(c, call, be))
  }

  /** Attach: POST of the request to the storage's attachments. */
  function Attach(c: ClientConfig, be: Backend, request: AttachTo,
                  encode: AttachTo -> Payload, decode: Stream -> (BlockStorage, Option<string>)): (r: Returned<BlockStorage>)
    ensures r == Finish(ZeroBlockStorage, MakeRequest(c,
      Call(POST, "/v1/projects/" + request.projectID + "/storages/" + request.storageID + "/attachments",
           encode(request), JsonInto(decode)), be))
    ensures CallerResult(c, POST, "/v1/projects/" + request.projectID + "/storages/" + request.storageID + "/attachments",
                         Buffered(encode(request)), be, ZeroBlockStorage, r)
  {
    var call := Call(POST, AttachmentsPath(request.projectID, request.storageID), encode(request), JsonInto(decode));
    PathShapes(request.projectID, request.storageID);
    FinishGuarantees(c, call, be, ZeroBlockStorage);
    Finish(ZeroBlockStorage, MakeRequest(c, call, be))
  }

  /** Detach: DELETE on the storage's attachments with no body and no
      destination. */
  function Detach(c: ClientConfig, be: Backend, request: DetachFrom): (r: Answer)
    ensures r == Answered(MakeRequest<()>(c,
      Call(DELETE, "/v1/projects/" + request.projectID + "/storages/" + request.storageID + "/attachments",
           NoPayload, NoTarget), be))
    ensures CallerAnswer(c, DELETE, "/v1/projects/" + request.projectID + "/storages/" + request.storageID + "/attachments",
                         [], be, r)
  {
    var call: Call<()> := Call(DELETE, AttachmentsPath(request.projectID, request.storageID), NoPayload, NoTarget);
    PathShapes(request.projectID, request.storageID);
    AnsweredGuarantees(c, call, be);
    Answered(MakeRequest(c, call, be))
  }
}
