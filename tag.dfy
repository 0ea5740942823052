/** The tag endpoint group (`tagEndpoints`) and the tag records it sends and receives. */
module Tag {
  import opened Wrappers
  import opened Http

  datatype TagData = TagData(name: string)
  datatype TagCreateRequest = TagCreateRequest(name: string)

  /** `TagUpdateRequest`: the new name is nested under `data`. */
  datatype TagUpdateRequest = TagUpdateRequest(data: TagData)

  datatype TagDetail = TagDetail(id: string, name: string, createdAt: Option<string>, updatedAt: Option<string>)

  /** The bodies this group sends. */
  datatype TagBody =
    | CreateBody(createRequest: TagCreateRequest)
    | UpdateBody(updateRequest: TagUpdateRequest)

  /** One call of the group, with its arguments. `getAll` resolves to
      `ListResult` of what the handler resolves to (`tags` is the list field);
      every other call resolves to the handler's result unchanged. */
  datatype TagCall =
    | GetAll
    | Create(createRequest: TagCreateRequest)
    | Update(tagId: string, updateRequest: TagUpdateRequest)
    | Delete(tagId: string)

  predicate PlainIds(c: TagCall)
  {
    (c.Update? || c.Delete?) ==> PlainId(c.tagId)
  }

  /** The request each call hands to the request handler. Every request has a
      body exactly when it is a POST, and the body is the caller's request
      unchanged. */
  function RequestFor(c: TagCall): (r: Request<TagBody>)
    ensures r.httpMethod == GET <==> r.body.None?
    ensures c.Create? ==> r.body == Some(CreateBody(c.createRequest))
    ensures c.Update? ==> r.body == Some(UpdateBody(c.updateRequest))
  {
    match c
    case GetAll => Request(Path(["tag", "all"]), GET, None)
    case Create(req) => Request(Path(["tag", "create"]), POST, Some(CreateBody(req)))
    case Update(id, req) => Request(Path(["tag", id, "update"]), POST, Some(UpdateBody(req)))
    case Delete(id) => Request(Path(["tag", id, "delete"]), GET, None)
  }

  /** The call a request came from, read back from its method, path and body. */
  function Decode(r: Request<TagBody>): Option<TagCall>
  {
    var s := Segments(r.endpoint);
    if |s| == 2 && s[0] == "tag" then
      if s[1] == "all" && r.httpMethod == GET && r.body.None? then Some(GetAll)
      else if s[1] == "create" && r.httpMethod == POST && r.body.Some? && r.body.value.CreateBody? then
        Some(Create(r.body.value.createRequest))
      else None
    else if |s| == 3 && s[0] == "tag" then
      if s[2] == "update" && r.httpMethod == POST && r.body.Some? && r.body.value.UpdateBody? then
        Some(Update(s[1], r.body.value.updateRequest))
      else if s[2] == "delete" && r.httpMethod == GET && r.body.None? then Some(Delete(s[1]))
      else None
    else None
  }

  /** Every call's request can be read back to the call, for ids without '/'. */
  lemma DecodeRequestFor(c: TagCall)
    requires PlainIds(c)
    ensures Decode(RequestFor(c)) == Some(c)
  {
    match c
    case GetAll => SegmentsOfEndpoint(RequestFor(c), ["tag", "all"]);
    case Create(req) => SegmentsOfEndpoint(RequestFor(c), ["tag", "create"]);
    case Update(id, req) => DecodeUpdate(id, req);
    case Delete(id) => DecodeDelete(id);
  }

  lemma DecodeUpdate(id: string, req: TagUpdateRequest)
    requires PlainId(id)
    ensures Decode(RequestFor(Update(id, req))) == Some(Update(id, req))
  {
    SegmentsOfEndpoint(RequestFor(Update(id, req)), ["tag", id, "update"]);
  }

  lemma DecodeDelete(id: string)
    requires PlainId(id)
    ensures Decode(RequestFor(Delete(id))) == Some(Delete(id))
  {
    SegmentsOfEndpoint(RequestFor(Delete(id)), ["tag", id, "delete"]);
  }

  /** No two different calls send the same request. */
  lemma RequestsDistinct(c1: TagCall, c2: TagCall)
    requires PlainIds(c1) && PlainIds(c2)
    requires RequestFor(c1) == RequestFor(c2)
    ensures c1 == c2
  {
    DecodeRequestFor(c1);
    DecodeRequestFor(c2);
  }
}
