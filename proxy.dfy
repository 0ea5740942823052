/**
 * The proxy endpoint group (`proxyEndpoints`) and the proxy records it sends
 * and receives.
 */
module Proxy {
  import opened Wrappers
  import opened Http

  /** The geolocation snapshot the service caches for a proxy's exit IP. */
  datatype GeoFromIp = GeoFromIp(
    ip: string,
    isoCode: Option<string>,
    country: Option<string>,
    city: Option<string>,
    postal: Option<string>,
    languages: seq<string>,
    timeZone: string,
    latitude: Option<Number>,
    longitude: Option<Number>,
    accuracy: Option<Number>)

  /** `NetworkProxy`: a closed sum of five variants told apart by `type`.
      `Block` carries nothing; `Http` and `Socks5` require a host and a port. */
  datatype NetworkProxy =
    | Direct(geoFromIp: Option<Nullable<GeoFromIp>>)
    | Block
    | Http(host: string, port: Number, username: Option<string>, password: Option<string>,
           geoFromIp: Option<Nullable<GeoFromIp>>)
    | Socks5(host: string, port: Number, username: Option<string>, password: Option<string>,
             geoFromIp: Option<Nullable<GeoFromIp>>)
    | WireGuard(publicKey: string, privateKey: string, endpoint: string, localAddress: seq<string>,
                preSharedKey: Option<string>, mtu: Option<Number>, reserved: Option<(Number, Number, Number)>,
                geoFromIp: Option<Nullable<GeoFromIp>>)
  {
    /** The value of the `type` discriminator on the wire. */
    function TypeTag(): string
    {
      match this
      case Direct(_) => "direct"
      case Block => "block"
      case Http(_, _, _, _, _) => "http"
      case Socks5(_, _, _, _, _) => "socks5"
      case WireGuard(_, _, _, _, _, _, _, _) => "wireguard"
    }
  }

  /** The discriminator determines the variant. */
  lemma TypeTagDeterminesVariant(p: NetworkProxy, q: NetworkProxy)
    ensures p.TypeTag() == q.TypeTag() <==>
      (p.Direct? && q.Direct?) || (p.Block? && q.Block?) || (p.Http? && q.Http?)
      || (p.Socks5? && q.Socks5?) || (p.WireGuard? && q.WireGuard?)
  {
  }

  datatype ProxyCreateRequest = ProxyCreateRequest(name: string, data: NetworkProxy)
  datatype ProxyUpdateRequest = ProxyUpdateRequest(name: string, data: NetworkProxy)

  datatype ProxyDetail = ProxyDetail(
    id: string, name: string, data: NetworkProxy, createdAt: Option<string>, updatedAt: Option<string>)

  /** `ProxyGeolocateRequest`; its one key is `type`. */
  datatype ProxyGeolocateRequest = ProxyGeolocateRequest(proxyType: string)

  /** The bodies this group sends. */
  datatype ProxyBody =
    | CreateBody(createRequest: ProxyCreateRequest)
    | UpdateBody(updateRequest: ProxyUpdateRequest)
    | GeolocateBody(geolocateRequest: ProxyGeolocateRequest)

  /** One call of the group, with its arguments. `getAll` resolves to
      `ListResult` of what the handler resolves to (`proxies` is the list
      field); every other call resolves to the handler's result unchanged. */
  datatype ProxyCall =
    | GetAll
    | Create(createRequest: ProxyCreateRequest)
    | Update(proxyId: string, updateRequest: ProxyUpdateRequest)
    | Delete(proxyId: string)
    | GeolocateById(proxyId: string)
    | Geolocate(geolocateRequest: ProxyGeolocateRequest)

  predicate PlainIds(c: ProxyCall)
  {
    (c.Update? || c.Delete? || c.GeolocateById?) ==> PlainId(c.proxyId)
  }

  /** The request each call hands to the request handler. Every request has a
      body exactly when it is a POST, and the body is the caller's request
      unchanged. */
  function RequestFor(c: ProxyCall): (r: Request<ProxyBody>)
    ensures r.httpMethod == GET <==> r.body.None?
    ensures c.Create? ==> r.body == Some(CreateBody(c.createRequest))
    ensures c.Update? ==> r.body == Some(UpdateBody(c.updateRequest))
    ensures c.Geolocate? ==> r.body == Some(GeolocateBody(c.geolocateRequest))
  {
    match c
    case GetAll => Request(Path(["proxy", "all"]), GET, None)
    case Create(req) => Request(Path(["proxy", "create"]), POST, Some(CreateBody(req)))
    case Update(id, req) => Request(Path(["proxy", id, "update"]), POST, Some(UpdateBody(req)))
    case Delete(id) => Request(Path(["proxy", id, "delete"]), GET, None)
    case GeolocateById(id) => Request(Path(["proxy", id, "geolocate"]), GET, None)
    case Geolocate(req) => Request(Path(["proxy", "geolocate"]), POST, Some(GeolocateBody(req)))
  }

  /** The call a request came from, read back from its method, path and body. */
  function Decode(r: Request<ProxyBody>): Option<ProxyCall>
  {
    var s := Segments(r.endpoint);
    if |s| == 2 && s[0] == "proxy" then
      if s[1] == "all" && r.httpMethod == GET && r.body.None? then Some(GetAll)
      else if s[1] == "create" && r.httpMethod == POST && r.body.Some? && r.body.value.CreateBody? then
        Some(Create(r.body.value.createRequest))
      else if s[1] == "geolocate" && r.httpMethod == POST && r.body.Some? && r.body.value.GeolocateBody? then
        Some(Geolocate(r.body.value.geolocateRequest))
      else None
    else if |s| == 3 && s[0] == "proxy" then
      if s[2] == "update" && r.httpMethod == POST && r.body.Some? && r.body.value.UpdateBody? then
        Some(Update(s[1], r.body.value.updateRequest))
      else if s[2] == "delete" && r.httpMethod == GET && r.body.None? then Some(Delete(s[1]))
      else if s[2] == "geolocate" && r.httpMethod == GET && r.body.None? then Some(GeolocateById(s[1]))
      else None
    else None
  }

  /** Every call's request can be read back to the call, for ids without '/'. */
  lemma DecodeRequestFor(c: ProxyCall)
    requires PlainIds(c)
    ensures Decode(RequestFor(c)) == Some(c)
  {
    match c
    case GetAll => SegmentsOfEndpoint(RequestFor(c), ["proxy", "all"]);
    case Create(req) => DecodeCreate(req);
    case Update(id, req) => DecodeUpdate(id, req);
    case Delete(id) => DecodeDelete(id);
    case GeolocateById(id) => DecodeGeolocateById(id);
    case Geolocate(req) => DecodeGeolocate(req);
  }

  lemma DecodeCreate(req: ProxyCreateRequest)
    ensures Decode(RequestFor(Create(req))) == Some(Create(req))
  {
    SegmentsOfEndpoint(RequestFor(Create(req)), ["proxy", "create"]);
  }

  lemma DecodeUpdate(id: string, req: ProxyUpdateRequest)
    requires PlainId(id)
    ensures Decode(RequestFor(Update(id, req))) == Some(Update(id, req))
  {
    SegmentsOfEndpoint(RequestFor(Update(id, req)), ["proxy", id, "update"]);
  }

  lemma DecodeDelete(id: string)
    requires PlainId(id)
    ensures Decode(RequestFor(Delete(id))) == Some(Delete(id))
  {
    SegmentsOfEndpoint(RequestFor(Delete(id)), ["proxy", id, "delete"]);
  }

  lemma DecodeGeolocateById(id: string)
    requires PlainId(id)
    ensures Decode(RequestFor(GeolocateById(id))) == Some(GeolocateById(id))
  {
    SegmentsOfEndpoint(RequestFor(GeolocateById(id)), ["proxy", id, "geolocate"]);
  }

  lemma DecodeGeolocate(req: ProxyGeolocateRequest)
    ensures Decode(RequestFor(Geolocate(req))) == Some(Geolocate(req))
  {
    SegmentsOfEndpoint(RequestFor(Geolocate(req)), ["proxy", "geolocate"]);
  }

  /** No two different calls send the same request. */
  lemma RequestsDistinct(c1: ProxyCall, c2: ProxyCall)
    requires PlainIds(c1) && PlainIds(c2)
    requires RequestFor(c1) == RequestFor(c2)
    ensures c1 == c2
  {
    DecodeRequestFor(c1);
    DecodeRequestFor(c2);
  }
}
