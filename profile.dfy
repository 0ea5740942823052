/**
 * The profile endpoint group (`profileEndpoints`): the request each call hands
 * to the request handler, the normalisation of the listing calls and the
 * extension list read back by `getExtensions`.
 */
module Profile {
  import opened Wrappers
  import opened Http
  import opened ProfileTypes
  import opened Builder
  import Proxy
  import ApiClient

  /** The bodies this group sends. */
  datatype ProfileBody =
    | CreateBody(createRequest: ProfileCreateRequest)
    | UpdateBody(updateRequest: ProfileUpdateRequest)
    | SearchBody(searchRequest: ProfileSearchRequest)
    | OpenBody(openRequest: ProfileOpenRequest)
    | TagNamesBody(tagNames: seq<string>)
    | CookiesBody(cookies: seq<CookieData>)

  /** `create` accepts a raw request or a builder. */
  datatype CreateArg = CreateFromBuilder(builder: ProfileBuilder) | CreateFromRequest(request: ProfileCreateRequest)

  /** `update` accepts a raw request or a builder. */
  datatype UpdateArg = UpdateFromBuilder(builder: ProfileBuilder) | UpdateFromRequest(request: ProfileUpdateRequest)

  /** One call of the group, with its arguments. The listing calls (`getAll`,
      `search`, `getListOpen`, `getTrash`) resolve to `ListResult` of what the
      handler resolves to (`profiles` is the list field), `getExtensions` to
      `ExtensionsOf` of it, and every other call to the handler's result
      unchanged. */
  datatype ProfileCall =
    | Create(createArg: CreateArg)
    | GetAll
    | Search(searchRequest: ProfileSearchRequest)
    | GetListOpen
    | GetById(profileId: string)
    | GetExtensions(profileId: string)
    | Update(profileId: string, updateArg: UpdateArg)
    | Delete(profileId: string)
    | Open(profileId: string, openRequest: Option<ProfileOpenRequest>)
    | Close(profileId: string)
    | AddTags(profileId: string, tags: seq<string>)
    | RemoveTags(profileId: string, tags: seq<string>)
    | ExportCookies(profileId: string)
    | ImportCookies(profileId: string, cookies: seq<CookieData>)
    | Geolocate(profileId: string)
    | GetTrash
    | DeleteFromTrash(profileId: string)
    | CleanTrash
    | RestoreAllFromTrash
    | RestoreFromTrash(profileId: string)
    | InstallExtensions(profileId: string, installPaths: seq<string>)
    | DisableExtensions(profileId: string, extensionIds: seq<string>)
    | PinExtensions(profileId: string, extensionIds: seq<string>)
    | UninstallExtensions(profileId: string, extensionIds: seq<string>)

  /** The builder a call reads, if any. */
  function Footprint(c: ProfileCall): set<object>
  {
    if c.Create? && c.createArg.CreateFromBuilder? then {c.createArg.builder}
    else if c.Update? && c.updateArg.UpdateFromBuilder? then {c.updateArg.builder}
    else {}
  }

  /** The payload `create` posts: the builder's id, settings and tags, or
      the raw request unchanged. */
  function CreatePayload(arg: CreateArg): (r: ProfileCreateRequest)
    reads if arg.CreateFromBuilder? then {arg.builder} else {}
    ensures arg.CreateFromBuilder? ==>
      r.id == arg.builder.id && r.data == arg.builder.profile && r.tags == Some(arg.builder.tags)
    ensures arg.CreateFromRequest? ==> r == arg.request
  {
    match arg
    case CreateFromBuilder(b) => b.BuildPayload()
    case CreateFromRequest(req) => req
  }

  /** The payload `update` posts: the builder's settings, with its tags only
      when there are any, or the raw request unchanged. */
  function UpdatePayload(arg: UpdateArg): (r: ProfileUpdateRequest)
    reads if arg.UpdateFromBuilder? then {arg.builder} else {}
    ensures arg.UpdateFromBuilder? ==>
      r.data == arg.builder.profile && (r.tags.None? <==> arg.builder.tags == [])
      && (r.tags.Some? ==> r.tags.value == arg.builder.tags)
    ensures arg.UpdateFromRequest? ==> r == arg.request
  {
    match arg
    case UpdateFromBuilder(b) => b.BuildUpdatePayload()
    case UpdateFromRequest(req) => req
  }

  // ------------------------------------------------------------- extension intents

  /** The four extension helpers, named by the intent list each one fills. */
  datatype Intent = Install | Disable | Pin | Uninstall

  /** The intent list of `m` that `intent` fills. */
  function IntentList(m: ExtensionManager, intent: Intent): Option<seq<string>>
  {
    match intent
    case Install => m.installPaths
    case Disable => m.disabledIds
    case Pin => m.pinnedIds
    case Uninstall => m.uninstallIds
  }

  /** How many of the five keys of `m` are present. */
  function KeyCount(m: ExtensionManager): nat
  {
    (if m.list.Some? then 1 else 0) + (if m.installPaths.Some? then 1 else 0)
    + (if m.uninstallIds.Some? then 1 else 0) + (if m.disabledIds.Some? then 1 else 0)
    + (if m.pinnedIds.Some? then 1 else 0)
  }

  /** `{installPaths}`, `{disabledIds}`, `{pinnedIds}` or `{uninstallIds}`: an
      extension manager holding exactly one key, the intent's list. */
  function IntentManager(intent: Intent, ids: seq<string>): (m: ExtensionManager)
    ensures KeyCount(m) == 1
    ensures IntentList(m, intent) == Some(ids)
  {
    match intent
    case Install => EmptyExtensionManager.(installPaths := Some(ids))
    case Disable => EmptyExtensionManager.(disabledIds := Some(ids))
    case Pin => EmptyExtensionManager.(pinnedIds := Some(ids))
    case Uninstall => EmptyExtensionManager.(uninstallIds := Some(ids))
  }

  /** The update request an extension helper sends: `{data: {extensionManager: …}}`
      with no tags. */
  function IntentUpdate(intent: Intent, ids: seq<string>): (u: ProfileUpdateRequest)
    ensures u.tags.None?
    ensures u.data == EmptyProfile.(extensionManager := Some(IntentManager(intent, ids)))
  {
    ProfileUpdateRequest(EmptyProfile.(extensionManager := Some(IntentManager(intent, ids))), None)
  }

  // ------------------------------------------------------------- requests

  /** The request each call hands to the request handler. A request has a body
      exactly when it is a POST; a builder argument is sent as its finalised
      payload and a raw request unchanged; `open` without a request sends `{}`. */
  function RequestFor(c: ProfileCall): (r: Request<ProfileBody>)
    reads Footprint(c)
    ensures r.httpMethod == GET <==> r.body.None?
    ensures c.Create? && c.createArg.CreateFromBuilder? ==>
      r.body == Some(CreateBody(c.createArg.builder.BuildPayload()))
    ensures c.Create? && c.createArg.CreateFromRequest? ==> r.body == Some(CreateBody(c.createArg.request))
    ensures c.Update? && c.updateArg.UpdateFromBuilder? ==>
      r.body == Some(UpdateBody(c.updateArg.builder.BuildUpdatePayload()))
    ensures c.Update? && c.updateArg.UpdateFromRequest? ==> r.body == Some(UpdateBody(c.updateArg.request))
    ensures c.Open? && c.openRequest.None? ==> r.body == Some(OpenBody(EmptyOpenRequest))
    ensures c.Open? && c.openRequest.Some? ==> r.body == Some(OpenBody(c.openRequest.value))
    ensures c.AddTags? || c.RemoveTags? ==> r.body == Some(TagNamesBody(c.tags))
  {
    match c
    case Create(arg) => Request(Path(["profile", "create"]), POST, Some(CreateBody(CreatePayload(arg))))
    case GetAll => Request(Path(["profile", "all"]), GET, None)
    case Search(req) => Request(Path(["profile", "search"]), POST, Some(SearchBody(req)))
    case GetListOpen => Request(Path(["profile", "list-open"]), GET, None)
    case GetById(id) => Request(Path(["profile", id]), GET, None)
    case GetExtensions(id) => Request(Path(["profile", id]), GET, None)
    case Update(id, arg) => Request(Path(["profile", id, "update"]), POST, Some(UpdateBody(UpdatePayload(arg))))
    case Delete(id) => Request(Path(["profile", id, "delete"]), GET, None)
    case Open(id, req) => Request(Path(["profile", id, "open"]), POST, Some(OpenBody(req.GetOr(EmptyOpenRequest))))
    case Close(id) => Request(Path(["profile", id, "close"]), GET, None)
    case AddTags(id, tags) => Request(Path(["profile", id, "add-tags"]), POST, Some(TagNamesBody(tags)))
    case RemoveTags(id, tags) => Request(Path(["profile", id, "remove-tags"]), POST, Some(TagNamesBody(tags)))
    case ExportCookies(id) => Request(Path(["profile", id, "export-cookies"]), GET, None)
    case ImportCookies(id, cookies) => Request(Path(["profile", id, "import-cookies"]), POST, Some(CookiesBody(cookies)))
    case Geolocate(id) => Request(Path(["profile", id, "geolocate"]), GET, None)
    case GetTrash => Request(Path(["profile", "trash"]), GET, None)
    case DeleteFromTrash(id) => Request(Path(["profile", "trash", id, "delete"]), GET, None)
    case CleanTrash => Request(Path(["profile", "trash", "clean"]), GET, None)
    case RestoreAllFromTrash => Request(Path(["profile", "trash", "restore-all"]), GET, None)
    case RestoreFromTrash(id) => Request(Path(["profile", "trash", id, "restore"]), GET, None)
    case InstallExtensions(id, paths) =>
      Request(Path(["profile", id, "update"]), POST, Some(UpdateBody(IntentUpdate(Install, paths))))
    case DisableExtensions(id, ids) =>
      Request(Path(["profile", id, "update"]), POST, Some(UpdateBody(IntentUpdate(Disable, ids))))
    case PinExtensions(id, ids) =>
      Request(Path(["profile", id, "update"]), POST, Some(UpdateBody(IntentUpdate(Pin, ids))))
    case UninstallExtensions(id, ids) =>
      Request(Path(["profile", id, "update"]), POST, Some(UpdateBody(IntentUpdate(Uninstall, ids))))
  }

  // ------------------------------------------------------------- reading a request back

  /** The call a request came from, read back from its method, path and body. */
  function Decode(r: Request<ProfileBody>): Option<ProfileCall>
  {
    var s := Segments(r.endpoint);
    if |s| == 2 && s[0] == "profile" then DecodeTop(s[1], r.httpMethod, r.body)
    else if |s| == 3 && s[0] == "profile" then DecodeAction(s[1], s[2], r.httpMethod, r.body)
    else if |s| == 4 && s[0] == "profile" && s[1] == "trash" then DecodeTrashed(s[2], s[3], r.httpMethod, r.body)
    else None
  }

  /** `/profile/<x>`: a fixed route, or otherwise a profile id. */
  function DecodeTop(x: string, m: Method, body: Option<ProfileBody>): Option<ProfileCall>
  {
    if m == POST then
      if x == "create" && body.Some? && body.value.CreateBody? then
        Some(Create(CreateFromRequest(body.value.createRequest)))
      else if x == "search" && body.Some? && body.value.SearchBody? then Some(Search(body.value.searchRequest))
      else None
    else if body.Some? then None
    else if x == "all" then Some(GetAll)
    else if x == "list-open" then Some(GetListOpen)
    else if x == "trash" then Some(GetTrash)
    else Some(GetById(x))
  }

  /** `/profile/<a>/<b>`: the two trash-wide routes, or an action on profile `a`. */
  function DecodeAction(a: string, b: string, m: Method, body: Option<ProfileBody>): Option<ProfileCall>
  {
    if m == POST then
      if body.None? then None
      else if b == "update" && body.value.UpdateBody? then Some(Update(a, UpdateFromRequest(body.value.updateRequest)))
      else if b == "open" && body.value.OpenBody? then Some(Open(a, Some(body.value.openRequest)))
      else if b == "add-tags" && body.value.TagNamesBody? then Some(AddTags(a, body.value.tagNames))
      else if b == "remove-tags" && body.value.TagNamesBody? then Some(RemoveTags(a, body.value.tagNames))
      else if b == "import-cookies" && body.value.CookiesBody? then Some(ImportCookies(a, body.value.cookies))
      else None
    else if body.Some? then None
    else if a == "trash" && b == "clean" then Some(CleanTrash)
    else if a == "trash" && b == "restore-all" then Some(RestoreAllFromTrash)
    else if b == "delete" then Some(Delete(a))
    else if b == "close" then Some(Close(a))
    else if b == "export-cookies" then Some(ExportCookies(a))
    else if b == "geolocate" then Some(Geolocate(a))
    else None
  }

  /** `/profile/trash/<id>/<action>`. */
  function DecodeTrashed(id: string, action: string, m: Method, body: Option<ProfileBody>): Option<ProfileCall>
  {
    if m == GET && body.None? then
      if action == "delete" then Some(DeleteFromTrash(id))
      else if action == "restore" then Some(RestoreFromTrash(id))
      else None
    else None
  }

  /** The call as the request handler sees it: builder arguments replaced by
      their payloads, the extension helpers by the update they send, `open`
      without a request by `open` with `{}`, and `getExtensions` by `getById`. */
  function Canonical(c: ProfileCall): ProfileCall
    reads Footprint(c)
  {
    match c
    case Create(arg) => Create(CreateFromRequest(CreatePayload(arg)))
    case Update(id, arg) => Update(id, UpdateFromRequest(UpdatePayload(arg)))
    case GetExtensions(id) => GetById(id)
    case Open(id, req) => Open(id, Some(req.GetOr(EmptyOpenRequest)))
    case InstallExtensions(id, paths) => Update(id, UpdateFromRequest(IntentUpdate(Install, paths)))
    case DisableExtensions(id, ids) => Update(id, UpdateFromRequest(IntentUpdate(Disable, ids)))
    case PinExtensions(id, ids) => Update(id, UpdateFromRequest(IntentUpdate(Pin, ids)))
    case UninstallExtensions(id, ids) => Update(id, UpdateFromRequest(IntentUpdate(Uninstall, ids)))
    case _ => c
  }

  /** The routes that `getById` shares with a fixed listing route. */
  const ReservedIds: set<string> := {"all", "list-open", "trash"}

  /** The ids a call interpolates hold no '/', and an id fetched by `getById`
      or `getExtensions` is not one of the listing routes. */
  predicate Routable(c: ProfileCall)
  {
    match c
    case GetAll | Create(_) | Search(_) | GetListOpen | GetTrash | CleanTrash | RestoreAllFromTrash => true
    case GetById(id) => PlainId(id) && id !in ReservedIds
    case GetExtensions(id) => PlainId(id) && id !in ReservedIds
    case _ => PlainId(c.profileId)
  }

  /** A call sends the same request as its canonical form: a builder sends
      exactly its finalised payload, each extension helper is an `update`,
      `open()` is `open({})` and `getExtensions` fetches what `getById` does. */
  lemma SameRequestAsCanonical(c: ProfileCall)
    ensures RequestFor(Canonical(c)) == RequestFor(c)
  {
  }

  /** Every call's request reads back to the call's canonical form. */
  lemma DecodeRequestFor(c: ProfileCall)
    requires Routable(c)
    ensures Decode(RequestFor(c)) == Some(Canonical(c))
  {
    match c
    case Create(arg) => DecodeCreate(arg);
    case GetAll => DecodeGetAll();
    case Search(req) => DecodeSearch(req);
    case GetListOpen => DecodeGetListOpen();
    case GetById(id) => DecodeGetById(id);
    case GetExtensions(id) => DecodeGetExtensions(id);
    case Update(id, arg) => DecodeUpdate(id, arg);
    case Delete(id) => DecodeDelete(id);
    case Open(id, req) => DecodeOpen(id, req);
    case Close(id) => DecodeClose(id);
    case AddTags(id, tags) => DecodeAddTags(id, tags);
    case RemoveTags(id, tags) => DecodeRemoveTags(id, tags);
    case ExportCookies(id) => DecodeExportCookies(id);
    case ImportCookies(id, cookies) => DecodeImportCookies(id, cookies);
    case Geolocate(id) => DecodeGeolocate(id);
    case GetTrash => DecodeGetTrash();
    case DeleteFromTrash(id) => DecodeDeleteFromTrash(id);
    case CleanTrash => DecodeCleanTrash();
    case RestoreAllFromTrash => DecodeRestoreAllFromTrash();
    case RestoreFromTrash(id) => DecodeRestoreFromTrash(id);
    case InstallExtensions(id, paths) => DecodeInstallExtensions(id, paths);
    case DisableExtensions(id, ids) => DecodeDisableExtensions(id, ids);
    case PinExtensions(id, ids) => DecodePinExtensions(id, ids);
    case UninstallExtensions(id, ids) => DecodeUninstallExtensions(id, ids);
  }

  lemma DecodeCreate(arg: CreateArg)
    ensures Decode(RequestFor(Create(arg))) == Some(Canonical(Create(arg)))
  {
    SegmentsOfEndpoint(RequestFor(Create(arg)), ["profile", "create"]);
  }

  lemma DecodeGetAll()
    ensures Decode(RequestFor(GetAll)) == Some(Canonical(GetAll))
  {
    SegmentsOfEndpoint(RequestFor(GetAll), ["profile", "all"]);
    assert DecodeTop("all", GET, None) == Some(GetAll);
  }

  lemma DecodeSearch(req: ProfileSearchRequest)
    ensures Decode(RequestFor(Search(req))) == Some(Canonical(Search(req)))
  {
    SegmentsOfEndpoint(RequestFor(Search(req)), ["profile", "search"]);
  }

  lemma DecodeGetListOpen()
    ensures Decode(RequestFor(GetListOpen)) == Some(Canonical(GetListOpen))
  {
    SegmentsOfEndpoint(RequestFor(GetListOpen), ["profile", "list-open"]);
    assert DecodeTop("list-open", GET, None) == Some(GetListOpen);
  }

  lemma DecodeGetById(id: string)
    requires PlainId(id) && id !in ReservedIds
    ensures Decode(RequestFor(GetById(id))) == Some(Canonical(GetById(id)))
  {
    SegmentsOfEndpoint(RequestFor(GetById(id)), ["profile", id]);
  }

  lemma DecodeGetExtensions(id: string)
    requires PlainId(id) && id !in ReservedIds
    ensures Decode(RequestFor(GetExtensions(id))) == Some(Canonical(GetExtensions(id)))
  {
    SegmentsOfEndpoint(RequestFor(GetExtensions(id)), ["profile", id]);
  }

  lemma DecodeUpdate(id: string, arg: UpdateArg)
    requires PlainId(id)
    ensures Decode(RequestFor(Update(id, arg))) == Some(Canonical(Update(id, arg)))
  {
    SegmentsOfEndpoint(RequestFor(Update(id, arg)), ["profile", id, "update"]);
  }

  lemma DecodeDelete(id: string)
    requires PlainId(id)
    ensures Decode(RequestFor(Delete(id))) == Some(Canonical(Delete(id)))
  {
    SegmentsOfEndpoint(RequestFor(Delete(id)), ["profile", id, "delete"]);
  }

  lemma DecodeOpen(id: string, req: Option<ProfileOpenRequest>)
    requires PlainId(id)
    ensures Decode(RequestFor(Open(id, req))) == Some(Canonical(Open(id, req)))
  {
    SegmentsOfEndpoint(RequestFor(Open(id, req)), ["profile", id, "open"]);
  }

  lemma DecodeClose(id: string)
    requires PlainId(id)
    ensures Decode(RequestFor(Close(id))) == Some(Canonical(Close(id)))
  {
    SegmentsOfEndpoint(RequestFor(Close(id)), ["profile", id, "close"]);
  }

  lemma DecodeAddTags(id: string, tags: seq<string>)
    requires PlainId(id)
    ensures Decode(RequestFor(AddTags(id, tags))) == Some(Canonical(AddTags(id, tags)))
  {
    SegmentsOfEndpoint(RequestFor(AddTags(id, tags)), ["profile", id, "add-tags"]);
  }

  lemma DecodeRemoveTags(id: string, tags: seq<string>)
    requires PlainId(id)
    ensures Decode(RequestFor(RemoveTags(id, tags))) == Some(Canonical(RemoveTags(id, tags)))
  {
    SegmentsOfEndpoint(RequestFor(RemoveTags(id, tags)), ["profile", id, "remove-tags"]);
  }

  lemma DecodeExportCookies(id: string)
    requires PlainId(id)
    ensures Decode(RequestFor(ExportCookies(id))) == Some(Canonical(ExportCookies(id)))
  {
    SegmentsOfEndpoint(RequestFor(ExportCookies(id)), ["profile", id, "export-cookies"]);
  }

  lemma DecodeImportCookies(id: string, cookies: seq<CookieData>)
    requires PlainId(id)
    ensures Decode(RequestFor(ImportCookies(id, cookies))) == Some(Canonical(ImportCookies(id, cookies)))
  {
    SegmentsOfEndpoint(RequestFor(ImportCookies(id, cookies)), ["profile", id, "import-cookies"]);
  }

  lemma DecodeGeolocate(id: string)
    requires PlainId(id)
    ensures Decode(RequestFor(Geolocate(id))) == Some(Canonical(Geolocate(id)))
  {
    SegmentsOfEndpoint(RequestFor(Geolocate(id)), ["profile", id, "geolocate"]);
  }

  lemma DecodeGetTrash()
    ensures Decode(RequestFor(GetTrash)) == Some(Canonical(GetTrash))
  {
    SegmentsOfEndpoint(RequestFor(GetTrash), ["profile", "trash"]);
    assert DecodeTop("trash", GET, None) == Some(GetTrash);
  }

  lemma DecodeDeleteFromTrash(id: string)
    requires PlainId(id)
    ensures Decode(RequestFor(DeleteFromTrash(id))) == Some(Canonical(DeleteFromTrash(id)))
  {
    SegmentsOfEndpoint(RequestFor(DeleteFromTrash(id)), ["profile", "trash", id, "delete"]);
  }

  lemma DecodeCleanTrash()
    ensures Decode(RequestFor(CleanTrash)) == Some(Canonical(CleanTrash))
  {
    SegmentsOfEndpoint(RequestFor(CleanTrash), ["profile", "trash", "clean"]);
    assert DecodeAction("trash", "clean", GET, None) == Some(CleanTrash);
  }

  lemma DecodeRestoreAllFromTrash()
    ensures Decode(RequestFor(RestoreAllFromTrash)) == Some(Canonical(RestoreAllFromTrash))
  {
    SegmentsOfEndpoint(RequestFor(RestoreAllFromTrash), ["profile", "trash", "restore-all"]);
    assert DecodeAction("trash", "restore-all", GET, None) == Some(RestoreAllFromTrash);
  }

  lemma DecodeRestoreFromTrash(id: string)
    requires PlainId(id)
    ensures Decode(RequestFor(RestoreFromTrash(id))) == Some(Canonical(RestoreFromTrash(id)))
  {
    SegmentsOfEndpoint(RequestFor(RestoreFromTrash(id)), ["profile", "trash", id, "restore"]);
  }

  lemma DecodeInstallExtensions(id: string, paths: seq<string>)
    requires PlainId(id)
    ensures Decode(RequestFor(InstallExtensions(id, paths))) == Some(Canonical(InstallExtensions(id, paths)))
  {
    SegmentsOfEndpoint(RequestFor(InstallExtensions(id, paths)), ["profile", id, "update"]);
  }

  lemma DecodeDisableExtensions(id: string, ids: seq<string>)
    requires PlainId(id)
    ensures Decode(RequestFor(DisableExtensions(id, ids))) == Some(Canonical(DisableExtensions(id, ids)))
  {
    SegmentsOfEndpoint(RequestFor(DisableExtensions(id, ids)), ["profile", id, "update"]);
  }

  lemma DecodePinExtensions(id: string, ids: seq<string>)
    requires PlainId(id)
    ensures Decode(RequestFor(PinExtensions(id, ids))) == Some(Canonical(PinExtensions(id, ids)))
  {
    SegmentsOfEndpoint(RequestFor(PinExtensions(id, ids)), ["profile", id, "update"]);
  }

  lemma DecodeUninstallExtensions(id: string, ids: seq<string>)
    requires PlainId(id)
    ensures Decode(RequestFor(UninstallExtensions(id, ids))) == Some(Canonical(UninstallExtensions(id, ids)))
  {
    SegmentsOfEndpoint(RequestFor(UninstallExtensions(id, ids)), ["profile", id, "update"]);
  }

  /** Two calls that send the same request have the same canonical form. */
  lemma SameRequestSameCall(c1: ProfileCall, c2: ProfileCall)
    requires Routable(c1) && Routable(c2)
    requires RequestFor(c1) == RequestFor(c2)
    ensures Canonical(c1) == Canonical(c2)
  {
    DecodeRequestFor(c1);
    DecodeRequestFor(c2);
  }

  /** Without the reserved-id condition the routes collide: `getById` of
      "all", "list-open" or "trash" sends exactly the request of the listing
      call with that name. */
  lemma ReservedIdsCollide()
    ensures RequestFor(GetById("all")) == RequestFor(GetAll)
    ensures RequestFor(GetById("list-open")) == RequestFor(GetListOpen)
    ensures RequestFor(GetById("trash")) == RequestFor(GetTrash)
  {
  }

  // ------------------------------------------------------------- results

  /** `getExtensions` after `await`: the detail's `data.extensionManager.list`,
      or `[]` when the manager or its list is absent. A detail that resolved to
      `undefined` makes the property read throw a `TypeError`. */
  function ExtensionsOf(o: Outcome<ProfileDetail>): (r: Outcome<seq<Extension>>)
    ensures o.Rejected? ==> r == Rejected(o.failure)
    ensures o == Resolved(None) ==> r == Rejected(TypeError)
    ensures o.Resolved? && o.data.Some? ==> r.Resolved? && r.data.Some?
    ensures o.Resolved? && o.data.Some? && o.data.value.data.extensionManager.Some?
            && o.data.value.data.extensionManager.value.list.Some?
            ==> r.data.value == o.data.value.data.extensionManager.value.list.value
    ensures (o.Resolved? && o.data.Some? && (o.data.value.data.extensionManager.None?
             || o.data.value.data.extensionManager.value.list.None?)) ==> r.data.value == []
  {
    match o
    case Rejected(f) => Rejected(f)
    case Resolved(None) => Rejected(TypeError)
    case Resolved(Some(detail)) =>
      var list := match detail.data.extensionManager
        case None => None
        case Some(m) => m.list;
      Resolved(Some(list.GetOr([])))
  }

  /** `getExtensions` as its optional chain evidently intends: a detail that
      resolved to `undefined` reads as a profile without extensions. Only a
      rejection of the request itself rejects. */
  function ExtensionsOfGuarded(o: Outcome<ProfileDetail>): (r: Outcome<seq<Extension>>)
    ensures r.Rejected? <==> o.Rejected?
    ensures o.Rejected? ==> r.failure == o.failure
    ensures o == Resolved(None) ==> r == Resolved(Some([]))
  {
    match o
    case Resolved(None) => Resolved(Some([]))
    case _ => ExtensionsOf(o)
  }

  /** The two readings differ only on an undefined detail. */
  lemma GuardedAgreesOnDetails(o: Outcome<ProfileDetail>)
    requires o != Resolved(None)
    ensures ExtensionsOfGuarded(o) == ExtensionsOf(o)
  {
  }

  /** A reply the client resolves to `undefined` (here a 200 reply that is not
      JSON) makes `getExtensions` as written reject with a `TypeError`, where
      the guarded reading yields no extensions. */
  lemma UndefinedDetailRejects()
    ensures var o := ApiClient.Classify<ProfileDetail>(ApiClient.Response(None, true, 200, "OK", ApiClient.ApiSuccess(None)));
            ExtensionsOf(o) == Rejected(TypeError) && ExtensionsOfGuarded(o) == Resolved(Some([]))
  {
  }

  /** A profile whose extension list was set with `withExtensions(xs)` reads
      back as `xs`, whatever its manager held before. */
  lemma ExtensionsRoundTrip(detail: ProfileDetail, xs: seq<Extension>)
    ensures var data := detail.data.(extensionManager := Some(WithList(detail.data.extensionManager, xs)));
            ExtensionsOfGuarded(Resolved(Some(detail.(data := data)))) == Resolved(Some(xs))
  {
  }

  // ------------------------------------------------------------- a worked call

  /** A builder given the name "P1", the tag "T1" and an HTTP proxy at
      p.example.com:8080 makes `create` POST exactly this payload. */
  method CreateWithBuilder() returns (r: Request<ProfileBody>)
    ensures r == Request("/profile/create", POST, Some(CreateBody(ProfileCreateRequest(
      None,
      EmptyProfile.(profileName := Some("P1"),
                    proxy := Some(Proxy.Http("p.example.com", 8080.0, None, None, None))),
      Some(["T1"])))))
  {
    var b := new ProfileBuilder();
    b.WithProfileName("P1");
    b.WithTag("T1");
    b.WithHttpProxy(ProxyServerParams("p.example.com", 8080.0, None, None, None));
    assert b.profile == EmptyProfile.(profileName := Some("P1"),
                    proxy := Some(Proxy.Http("p.example.com", 8080.0, None, None, None)));
    assert b.tags == ["T1"];
    assert b.id == None;
    r := RequestFor(Create(CreateFromBuilder(b)));
    assert Path(["profile", "create"]) == "/profile/create";
    assert r.endpoint == "/profile/create";
  }
}
