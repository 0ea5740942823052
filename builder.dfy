/**
 * `ProfileBuilder`: a fluent accumulator of a profile payload. Each `with*`
 * method updates one field, or one sub-field of a nested record, of the
 * builder in place; two finalisers read the accumulated state back as a create
 * or an update request. The methods return the builder itself for chaining;
 * here they return nothing and the caller keeps its reference.
 */
module Builder {
  import opened Wrappers
  import opened ProfileTypes
  import Proxy

  // ------------------------------------------------------------- nested updates

  /** Setting the custom payload of a field without a seed: an absent field is
      first created with the Custom mode; a present one keeps its mode. */
  function SetCustom<M, C>(field: Option<ModeCustom<M, C>>, customMode: M, custom: C): (r: ModeCustom<M, C>)
    ensures r.custom == Some(custom)
    ensures field.None? ==> r.mode == customMode
    ensures field.Some? ==> r.mode == field.value.mode
  {
    match field
    case None => ModeCustom(customMode, Some(custom))
    case Some(f) => f.(custom := Some(custom))
  }

  /** The same for a field with a seed: a present field keeps its mode and its seed. */
  function SetSeededCustom<M, C>(field: Option<ModeSeedCustom<M, C>>, customMode: M, custom: C): (r: ModeSeedCustom<M, C>)
    ensures r.custom == Some(custom)
    ensures field.None? ==> r.mode == customMode && r.seed.None?
    ensures field.Some? ==> r.mode == field.value.mode && r.seed == field.value.seed
  {
    match field
    case None => ModeSeedCustom(customMode, None, Some(custom))
    case Some(f) => f.(custom := Some(custom))
  }

  /** Setting the custom payload twice leaves only the second, and the mode
      is whatever the first call left. */
  lemma SetCustomLastWins<M, C>(field: Option<ModeCustom<M, C>>, customMode: M, c1: C, c2: C)
    ensures SetCustom(Some(SetCustom(field, customMode, c1)), customMode, c2) == SetCustom(field, customMode, c2)
  {
  }

  lemma SetSeededCustomLastWins<M, C>(field: Option<ModeSeedCustom<M, C>>, customMode: M, c1: C, c2: C)
    ensures SetSeededCustom(Some(SetSeededCustom(field, customMode, c1)), customMode, c2)
         == SetSeededCustom(field, customMode, c2)
  {
  }

  /** The four intent lists of an extension manager. */
  function Intents(m: ExtensionManager): (Option<seq<string>>, Option<seq<string>>, Option<seq<string>>, Option<seq<string>>)
  {
    (m.installPaths, m.uninstallIds, m.disabledIds, m.pinnedIds)
  }

  /** Replacing the resolved extension list: an absent manager is first created
      empty; the intent lists of a present one are kept. */
  function WithList(manager: Option<ExtensionManager>, list: seq<Extension>): (r: ExtensionManager)
    ensures r.list == Some(list)
    ensures manager.Some? ==> Intents(r) == Intents(manager.value)
    ensures manager.None? ==> Intents(r) == Intents(EmptyExtensionManager)
  {
    manager.GetOr(EmptyExtensionManager).(list := Some(list))
  }

  /** Setting one permission keeps the other. */
  function PutGeolocationPermission(p: Option<Permissions>, state: PermissionState): (r: Permissions)
    ensures r.geolocation == Some(state)
    ensures r.notifications == if p.Some? then p.value.notifications else None
  {
    p.GetOr(EmptyPermissions).(geolocation := Some(state))
  }

  function PutNotificationPermission(p: Option<Permissions>, state: PermissionState): (r: Permissions)
    ensures r.notifications == Some(state)
    ensures r.geolocation == if p.Some? then p.value.geolocation else None
  {
    p.GetOr(EmptyPermissions).(notifications := Some(state))
  }

  /** The two permission setters commute. */
  lemma PermissionSettersCommute(p: Option<Permissions>, g: PermissionState, n: PermissionState)
    ensures PutNotificationPermission(Some(PutGeolocationPermission(p, g)), n)
         == PutGeolocationPermission(Some(PutNotificationPermission(p, n)), g)
         == Permissions(Some(g), Some(n))
  {
  }

  // ------------------------------------------------------------- tag edits

  /** One call on the tag list: `withTags(ts)` or `withTag(t)`. */
  datatype TagEdit = Replace(tags: seq<string>) | Append(tag: string)

  function ApplyTagEdit(tags: seq<string>, e: TagEdit): seq<string>
  {
    match e
    case Replace(ts) => ts
    case Append(t) => tags + [t]
  }

  /** The tag list after a sequence of calls, applied first to last. */
  function ApplyTagEdits(tags: seq<string>, edits: seq<TagEdit>): seq<string>
    decreases |edits|
  {
    if edits == [] then tags
    else ApplyTagEdit(ApplyTagEdits(tags, edits[..|edits| - 1]), edits[|edits| - 1])
  }

  /** Some call in `edits` replaces the whole list. */
  predicate HasReplace(edits: seq<TagEdit>)
  {
    exists i :: 0 <= i < |edits| && edits[i].Replace?
  }

  /** Where the final tag list starts: the last replacement, or the initial list. */
  function LastReplacement(tags: seq<string>, edits: seq<TagEdit>): seq<string>
  {
    if HasReplace(edits) then edits[LastReplaceIndex(edits)].tags else tags
  }

  function LastReplaceIndex(edits: seq<TagEdit>): (i: nat)
    requires HasReplace(edits)
    ensures i < |edits| && edits[i].Replace?
    ensures forall j :: i < j < |edits| ==> edits[j].Append?
    decreases |edits|
  {
    if edits[|edits| - 1].Replace? then |edits| - 1
    else
      var init := edits[..|edits| - 1];
      assert HasReplace(init) by {
        var k :| 0 <= k < |edits| && edits[k].Replace?;
        assert k < |init| && init[k] == edits[k];
      }
      LastReplaceIndex(init)
  }

  /** The tags appended, in call order, after the last replacement. */
  function AppendedSinceReplace(edits: seq<TagEdit>): seq<string>
    decreases |edits|
  {
    if edits == [] then []
    else
      var last := edits[|edits| - 1];
      if last.Replace? then [] else AppendedSinceReplace(edits[..|edits| - 1]) + [last.tag]
  }

  /** `withTag` appends in order and never deduplicates, and `withTags`
      discards everything before it: the final list is the last replacement
      (or the initial list) followed by every tag appended after it. */
  lemma {:induction false} TagEditsFold(tags: seq<string>, edits: seq<TagEdit>)
    ensures ApplyTagEdits(tags, edits) == LastReplacement(tags, edits) + AppendedSinceReplace(edits)
    decreases |edits|
  {
    if edits != [] {
      var init, last := edits[..|edits| - 1], edits[|edits| - 1];
      TagEditsFold(tags, init);
      if last.Replace? {
        assert LastReplaceIndex(edits) == |edits| - 1;
      } else {
        if HasReplace(edits) {
          var k :| 0 <= k < |edits| && edits[k].Replace?;
          assert init[k] == edits[k];
          assert LastReplaceIndex(edits) == LastReplaceIndex(init);
        } else {
          assert !HasReplace(init) by {
            forall i | 0 <= i < |init| ensures !init[i].Replace? {
              assert init[i] == edits[i];
            }
          }
        }
      }
    }
  }

  // ------------------------------------------------------------- shortcut parameters

  /** The parameters of `withHttpProxy` and `withSocks5Proxy`. */
  datatype ProxyServerParams = ProxyServerParams(
    host: string, port: Number, username: Option<string>, password: Option<string>,
    geoFromIp: Option<Nullable<Proxy.GeoFromIp>>)

  /** The parameters of `withWireGuardProxy`. */
  datatype WireGuardParams = WireGuardParams(
    publicKey: string, privateKey: string, endpoint: string, localAddress: seq<string>,
    preSharedKey: Option<string>, mtu: Option<Number>, reserved: Option<(Number, Number, Number)>,
    geoFromIp: Option<Nullable<Proxy.GeoFromIp>>)

  // ------------------------------------------------------------- the builder

  class ProfileBuilder {
    var profile: ProfileData
    var tags: seq<string>
    var id: Option<string>

    constructor()
      ensures profile == EmptyProfile && tags == [] && id.None?
    {
      profile := EmptyProfile;
      tags := [];
      id := None;
    }

    method WithId(id: string)
      modifies this`id
      ensures this.id == Some(id)
    {
      this.id := Some(id);
    }

    method WithProfileName(profileName: string)
      modifies this`profile
      ensures profile == old(profile).(profileName := Some(profileName))
    {
      profile := profile.(profileName := Some(profileName));
    }

    method WithProfileIcon(profileIcon: string)
      modifies this`profile
      ensures profile == old(profile).(profileIcon := Some(profileIcon))
    {
      profile := profile.(profileIcon := Some(profileIcon));
    }

    method WithNote(note: string)
      modifies this`profile
      ensures profile == old(profile).(note := Some(note))
    {
      profile := profile.(note := Some(note));
    }

    method WithPinned(pinned: bool)
      modifies this`profile
      ensures profile == old(profile).(pinned := Some(pinned))
    {
      profile := profile.(pinned := Some(pinned));
    }

    /** Replaces the whole tag list, whatever it held. */
    method WithTags(tags: seq<string>)
      modifies this`tags
      ensures this.tags == tags
    {
      this.tags := tags;
    }

    /** Appends one tag at the end, duplicate or not. */
    method WithTag(tag: string)
      modifies this`tags
      ensures tags == old(tags) + [tag]
    {
      tags := tags + [tag];
    }

    method WithOS(os: OS)
      modifies this`profile
      ensures profile == old(profile).(os := Some(os))
    {
      profile := profile.(os := Some(os));
    }

    method WithBrowser(browser: Browser)
      modifies this`profile
      ensures profile == old(profile).(browser := Some(browser))
    {
      profile := profile.(browser := Some(browser));
    }

    method WithSpecterBrowser(version: string)
      modifies this`profile
      ensures profile == old(profile).(browser := Some(Specter(Some(version))))
    {
      profile := profile.(browser := Some(Specter(Some(version))));
    }

    method WithProxy(proxy: Proxy.NetworkProxy)
      modifies this`profile
      ensures profile == old(profile).(proxy := Some(proxy))
    {
      profile := profile.(proxy := Some(proxy));
    }

    method WithDirectProxy(geoFromIp: Option<Nullable<Proxy.GeoFromIp>>)
      modifies this`profile
      ensures profile == old(profile).(proxy := Some(Proxy.Direct(geoFromIp)))
    {
      WithProxy(Proxy.Direct(geoFromIp));
    }

    method WithBlockProxy()
      modifies this`profile
      ensures profile == old(profile).(proxy := Some(Proxy.Block))
    {
      WithProxy(Proxy.Block);
    }

    method WithHttpProxy(params: ProxyServerParams)
      modifies this`profile
      ensures profile == old(profile).(proxy := Some(Proxy.Http(
        params.host, params.port, params.username, params.password, params.geoFromIp)))
    {
      WithProxy(Proxy.Http(params.host, params.port, params.username, params.password, params.geoFromIp));
    }

    method WithSocks5Proxy(params: ProxyServerParams)
      modifies this`profile
      ensures profile == old(profile).(proxy := Some(Proxy.Socks5(
        params.host, params.port, params.username, params.password, params.geoFromIp)))
    {
      WithProxy(Proxy.Socks5(params.host, params.port, params.username, params.password, params.geoFromIp));
    }

    method WithWireGuardProxy(params: WireGuardParams)
      modifies this`profile
      ensures profile == old(profile).(proxy := Some(Proxy.WireGuard(
        params.publicKey, params.privateKey, params.endpoint, params.localAddress,
        params.preSharedKey, params.mtu, params.reserved, params.geoFromIp)))
    {
      WithProxy(Proxy.WireGuard(params.publicKey, params.privateKey, params.endpoint, params.localAddress,
                                params.preSharedKey, params.mtu, params.reserved, params.geoFromIp));
    }

    method WithDoNotTrackEnabled()
      modifies this`profile
      ensures profile == old(profile).(doNotTrack := Some(true))
    {
      profile := profile.(doNotTrack := Some(true));
    }

    method WithDoNotTrackDisabled()
      modifies this`profile
      ensures profile == old(profile).(doNotTrack := Some(false))
    {
      profile := profile.(doNotTrack := Some(false));
    }

    // ----- user agent

    method WithUserAgent(userAgent: UserAgent)
      modifies this`profile
      ensures profile == old(profile).(userAgent := Some(userAgent))
    {
      profile := profile.(userAgent := Some(userAgent));
    }

    /** The seed is accepted and ignored: the field becomes `{mode}` alone. */
    method WithUserAgentMode(mode: UserAgentMode, seed: Option<string>)
      modifies this`profile
      ensures profile == old(profile).(userAgent := Some(ModeCustom(mode, None)))
    {
      profile := profile.(userAgent := Some(ModeCustom(mode, None)));
    }

    method WithUserAgentCustom(custom: UserAgentCustom)
      modifies this`profile
      ensures profile == old(profile).(userAgent := Some(SetCustom(old(profile).userAgent, UserAgentMode.Custom, custom)))
    {
      if profile.userAgent.None? {
        profile := profile.(userAgent := Some(ModeCustom(UserAgentMode.Custom, None)));
      }
      profile := profile.(userAgent := Some(profile.userAgent.value.(custom := Some(custom))));
    }

    // ----- navigator

    method WithNavigator(navigator: Navigator)
      modifies this`profile
      ensures profile == old(profile).(navigator := Some(navigator))
    {
      profile := profile.(navigator := Some(navigator));
    }

    method WithNavigatorMode(mode: NavigatorMode, seed: Option<string>)
      modifies this`profile
      ensures profile == old(profile).(navigator := Some(ModeSeedCustom(mode, seed, None)))
    {
      profile := profile.(navigator := Some(ModeSeedCustom(mode, seed, None)));
    }

    method WithNavigatorCustom(custom: NavigatorCustom)
      modifies this`profile
      ensures profile == old(profile).(navigator := Some(SetSeededCustom(old(profile).navigator, NavigatorMode.Custom, custom)))
    {
      if profile.navigator.None? {
        profile := profile.(navigator := Some(ModeSeedCustom(NavigatorMode.Custom, None, None)));
      }
      profile := profile.(navigator := Some(profile.navigator.value.(custom := Some(custom))));
    }

    // ----- screen

    method WithScreen(screen: Screen)
      modifies this`profile
      ensures profile == old(profile).(screen := Some(screen))
    {
      profile := profile.(screen := Some(screen));
    }

    method WithScreenMode(mode: ScreenMode, seed: Option<string>)
      modifies this`profile
      ensures profile == old(profile).(screen := Some(ModeSeedCustom(mode, seed, None)))
    {
      profile := profile.(screen := Some(ModeSeedCustom(mode, seed, None)));
    }

    method WithScreenCustom(custom: ScreenCustom)
      modifies this`profile
      ensures profile == old(profile).(screen := Some(SetSeededCustom(old(profile).screen, ScreenMode.Custom, custom)))
    {
      if profile.screen.None? {
        profile := profile.(screen := Some(ModeSeedCustom(ScreenMode.Custom, None, None)));
      }
      profile := profile.(screen := Some(profile.screen.value.(custom := Some(custom))));
    }

    // ----- media devices

    method WithMediaDevices(mediaDevices: MediaDevices)
      modifies this`profile
      ensures profile == old(profile).(mediaDevices := Some(mediaDevices))
    {
      profile := profile.(mediaDevices := Some(mediaDevices));
    }

    method WithMediaDevicesMode(mode: MediaDevicesMode, seed: Option<string>)
      modifies this`profile
      ensures profile == old(profile).(mediaDevices := Some(ModeSeed(mode, seed)))
    {
      profile := profile.(mediaDevices := Some(ModeSeed(mode, seed)));
    }

    // ----- WebGL metadata

    method WithWebGLMetadata(webGLMetadata: WebGLMetadata)
      modifies this`profile
      ensures profile == old(profile).(webGLMetadata := Some(webGLMetadata))
    {
      profile := profile.(webGLMetadata := Some(webGLMetadata));
    }

    method WithWebGLMetadataMode(mode: WebGLMetadataMode, seed: Option<string>)
      modifies this`profile
      ensures profile == old(profile).(webGLMetadata := Some(ModeSeedCustom(mode, seed, None)))
    {
      profile := profile.(webGLMetadata := Some(ModeSeedCustom(mode, seed, None)));
    }

    method WithWebGLMetadataCustom(custom: WebGLMetadataCustom)
      modifies this`profile
      ensures profile == old(profile).(webGLMetadata :=
        Some(SetSeededCustom(old(profile).webGLMetadata, WebGLMetadataMode.Custom, custom)))
    {
      if profile.webGLMetadata.None? {
        profile := profile.(webGLMetadata := Some(ModeSeedCustom(WebGLMetadataMode.Custom, None, None)));
      }
      profile := profile.(webGLMetadata := Some(profile.webGLMetadata.value.(custom := Some(custom))));
    }

    // ----- WebGL image

    method WithWebGLImage(webGLImage: WebGLImage)
      modifies this`profile
      ensures profile == old(profile).(webGLImage := Some(webGLImage))
    {
      profile := profile.(webGLImage := Some(webGLImage));
    }

    method WithWebGLImageMode(mode: WebGLImageMode, seed: Option<string>)
      modifies this`profile
      ensures profile == old(profile).(webGLImage := Some(ModeSeed(mode, seed)))
    {
      profile := profile.(webGLImage := Some(ModeSeed(mode, seed)));
    }

    // ----- time zone and language

    method WithTimeZone(timeZone: TimeZone)
      modifies this`profile
      ensures profile == old(profile).(timeZone := Some(timeZone))
    {
      profile := profile.(timeZone := Some(timeZone));
    }

    method WithTimeZoneMode(mode: TimeZoneMode, value: Option<string>)
      modifies this`profile
      ensures profile == old(profile).(timeZone := Some(ModeValue(mode, value)))
    {
      profile := profile.(timeZone := Some(ModeValue(mode, value)));
    }

    method WithLanguage(language: Language)
      modifies this`profile
      ensures profile == old(profile).(language := Some(language))
    {
      profile := profile.(language := Some(language));
    }

    method WithLanguageMode(mode: LanguageMode, value: Option<seq<string>>)
      modifies this`profile
      ensures profile == old(profile).(language := Some(ModeValue(mode, value)))
    {
      profile := profile.(language := Some(ModeValue(mode, value)));
    }

    // ----- geolocation

    method WithGeolocation(geolocation: Geolocation)
      modifies this`profile
      ensures profile == old(profile).(geolocation := Some(geolocation))
    {
      profile := profile.(geolocation := Some(geolocation));
    }

    /** The field becomes `{mode}` alone; an earlier custom position is dropped. */
    method WithGeolocationMode(mode: GeolocationMode)
      modifies this`profile
      ensures profile == old(profile).(geolocation := Some(ModeCustom(mode, None)))
    {
      profile := profile.(geolocation := Some(ModeCustom(mode, None)));
    }

    method WithGeolocationCustom(custom: GeolocationCustom)
      modifies this`profile
      ensures profile == old(profile).(geolocation := Some(SetCustom(old(profile).geolocation, GeolocationMode.Custom, custom)))
    {
      if profile.geolocation.None? {
        profile := profile.(geolocation := Some(ModeCustom(GeolocationMode.Custom, None)));
      }
      profile := profile.(geolocation := Some(profile.geolocation.value.(custom := Some(custom))));
    }

    // ----- seeded noise fields

    method WithCanvas(canvas: Canvas)
      modifies this`profile
      ensures profile == old(profile).(canvas := Some(canvas))
    {
      profile := profile.(canvas := Some(canvas));
    }

    method WithCanvasMode(mode: CanvasMode, seed: Option<string>)
      modifies this`profile
      ensures profile == old(profile).(canvas := Some(ModeSeed(mode, seed)))
    {
      profile := profile.(canvas := Some(ModeSeed(mode, seed)));
    }

    method WithAudioContext(audioContext: AudioContext)
      modifies this`profile
      ensures profile == old(profile).(audioContext := Some(audioContext))
    {
      profile := profile.(audioContext := Some(audioContext));
    }

    method WithAudioContextMode(mode: AudioContextMode, seed: Option<string>)
      modifies this`profile
      ensures profile == old(profile).(audioContext := Some(ModeSeed(mode, seed)))
    {
      profile := profile.(audioContext := Some(ModeSeed(mode, seed)));
    }

    method WithClientRects(clientRects: ClientRects)
      modifies this`profile
      ensures profile == old(profile).(clientRects := Some(clientRects))
    {
      profile := profile.(clientRects := Some(clientRects));
    }

    method WithClientRectsMode(mode: ClientRectsMode, seed: Option<string>)
      modifies this`profile
      ensures profile == old(profile).(clientRects := Some(ModeSeed(mode, seed)))
    {
      profile := profile.(clientRects := Some(ModeSeed(mode, seed)));
    }

    method WithFont(font: Font)
      modifies this`profile
      ensures profile == old(profile).(font := Some(font))
    {
      profile := profile.(font := Some(font));
    }

    method WithFontMode(mode: FontMode, seed: Option<string>)
      modifies this`profile
      ensures profile == old(profile).(font := Some(ModeSeed(mode, seed)))
    {
      profile := profile.(font := Some(ModeSeed(mode, seed)));
    }

    // ----- extensions, permissions and the rest

    method WithExtensionManager(extensionManager: ExtensionManager)
      modifies this`profile
      ensures profile == old(profile).(extensionManager := Some(extensionManager))
    {
      profile := profile.(extensionManager := Some(extensionManager));
    }

    method WithExtensions(extensions: seq<Extension>)
      modifies this`profile
      ensures profile == old(profile).(extensionManager := Some(WithList(old(profile).extensionManager, extensions)))
    {
      if profile.extensionManager.None? {
        profile := profile.(extensionManager := Some(EmptyExtensionManager));
      }
      profile := profile.(extensionManager := Some(profile.extensionManager.value.(list := Some(extensions))));
    }

    method WithPermissions(permissions: Permissions)
      modifies this`profile
      ensures profile == old(profile).(permissions := Some(permissions))
    {
      profile := profile.(permissions := Some(permissions));
    }

    method WithGeolocationPermission(state: PermissionState)
      modifies this`profile
      ensures profile == old(profile).(permissions := Some(PutGeolocationPermission(old(profile).permissions, state)))
    {
      if profile.permissions.None? {
        profile := profile.(permissions := Some(EmptyPermissions));
      }
      profile := profile.(permissions := Some(profile.permissions.value.(geolocation := Some(state))));
    }

    method WithNotificationPermission(state: PermissionState)
      modifies this`profile
      ensures profile == old(profile).(permissions := Some(PutNotificationPermission(old(profile).permissions, state)))
    {
      if profile.permissions.None? {
        profile := profile.(permissions := Some(EmptyPermissions));
      }
      profile := profile.(permissions := Some(profile.permissions.value.(notifications := Some(state))));
    }

    method WithDns(dns: Dns)
      modifies this`profile
      ensures profile == old(profile).(dns := Some(dns))
    {
      profile := profile.(dns := Some(dns));
    }

    method WithDnsAddress(address: string)
      modifies this`profile
      ensures profile == old(profile).(dns := Some(Dns(address)))
    {
      profile := profile.(dns := Some(Dns(address)));
    }

    method WithRestoreOnStartup(restoreOnStartup: RestoreOnStartup)
      modifies this`profile
      ensures profile == old(profile).(restoreOnStartup := Some(restoreOnStartup))
    {
      profile := profile.(restoreOnStartup := Some(restoreOnStartup));
    }

    method WithRestoreOnStartupMode(mode: RestoreOnStartupMode, urls: Option<seq<string>>)
      modifies this`profile
      ensures profile == old(profile).(restoreOnStartup := Some(RestoreOnStartup(mode, urls)))
    {
      profile := profile.(restoreOnStartup := Some(RestoreOnStartup(mode, urls)));
    }

    method WithCommandLineSwitches(switches: seq<string>)
      modifies this`profile
      ensures profile == old(profile).(commandLineSwitches := Some(switches))
    {
      profile := profile.(commandLineSwitches := Some(switches));
    }

    // ----- shortcuts: each is its expansion

    method WithWindowsOS()
      modifies this`profile
      ensures profile == old(profile).(os := Some(Windows))
    {
      WithOS(Windows);
    }

    method WithLinuxOS()
      modifies this`profile
      ensures profile == old(profile).(os := Some(Linux))
    {
      WithOS(Linux);
    }

    method WithAndroidOS()
      modifies this`profile
      ensures profile == old(profile).(os := Some(Android))
    {
      WithOS(Android);
    }

    method WithSystemUserAgent()
      modifies this`profile
      ensures profile == old(profile).(userAgent := Some(ModeCustom(UserAgentMode.System, None)))
    {
      WithUserAgentMode(UserAgentMode.System, None);
    }

    /** The seed is passed on and then dropped, so the field carries none. */
    method WithMaskUserAgent(seed: Option<string>)
      modifies this`profile
      ensures profile == old(profile).(userAgent := Some(ModeCustom(UserAgentMode.Mask, None)))
    {
      WithUserAgentMode(UserAgentMode.Mask, seed);
    }

    method WithSystemNavigator()
      modifies this`profile
      ensures profile == old(profile).(navigator := Some(ModeSeedCustom(NavigatorMode.System, None, None)))
    {
      WithNavigatorMode(NavigatorMode.System, None);
    }

    method WithMaskNavigator(seed: Option<string>)
      modifies this`profile
      ensures profile == old(profile).(navigator := Some(ModeSeedCustom(NavigatorMode.Mask, seed, None)))
    {
      WithNavigatorMode(NavigatorMode.Mask, seed);
    }

    method WithSystemScreen()
      modifies this`profile
      ensures profile == old(profile).(screen := Some(ModeSeedCustom(ScreenMode.System, None, None)))
    {
      WithScreenMode(ScreenMode.System, None);
    }

    method WithMaskScreen(seed: Option<string>)
      modifies this`profile
      ensures profile == old(profile).(screen := Some(ModeSeedCustom(ScreenMode.Mask, seed, None)))
    {
      WithScreenMode(ScreenMode.Mask, seed);
    }

    method WithSystemTimeZone()
      modifies this`profile
      ensures profile == old(profile).(timeZone := Some(ModeValue(TimeZoneMode.System, None)))
    {
      WithTimeZoneMode(TimeZoneMode.System, None);
    }

    method WithBasedIPTimeZone()
      modifies this`profile
      ensures profile == old(profile).(timeZone := Some(ModeValue(TimeZoneMode.BasedIP, None)))
    {
      WithTimeZoneMode(TimeZoneMode.BasedIP, None);
    }

    method WithCustomTimeZone(timezone: string)
      modifies this`profile
      ensures profile == old(profile).(timeZone := Some(ModeValue(TimeZoneMode.Custom, Some(timezone))))
    {
      WithTimeZoneMode(TimeZoneMode.Custom, Some(timezone));
    }

    method WithSystemLanguage()
      modifies this`profile
      ensures profile == old(profile).(language := Some(ModeValue(LanguageMode.System, None)))
    {
      WithLanguageMode(LanguageMode.System, None);
    }

    method WithBasedIPLanguage()
      modifies this`profile
      ensures profile == old(profile).(language := Some(ModeValue(LanguageMode.BasedIP, None)))
    {
      WithLanguageMode(LanguageMode.BasedIP, None);
    }

    method WithCustomLanguage(languages: seq<string>)
      modifies this`profile
      ensures profile == old(profile).(language := Some(ModeValue(LanguageMode.Custom, Some(languages))))
    {
      WithLanguageMode(LanguageMode.Custom, Some(languages));
    }

    method WithBasedIPGeolocation()
      modifies this`profile
      ensures profile == old(profile).(geolocation := Some(ModeCustom(GeolocationMode.BasedIP, None)))
    {
      WithGeolocationMode(GeolocationMode.BasedIP);
    }

    method WithCustomGeolocation(latitude: Number, longitude: Number, accuracy: Number)
      modifies this`profile
      ensures profile == old(profile).(geolocation := Some(SetCustom(old(profile).geolocation,
        GeolocationMode.Custom, GeolocationCustom(latitude, longitude, accuracy))))
    {
      WithGeolocationCustom(GeolocationCustom(latitude, longitude, accuracy));
    }

    method WithMaskCanvas(seed: Option<string>)
      modifies this`profile
      ensures profile == old(profile).(canvas := Some(ModeSeed(CanvasMode.Mask, seed)))
    {
      WithCanvasMode(CanvasMode.Mask, seed);
    }

    method WithMaskAudioContext(seed: Option<string>)
      modifies this`profile
      ensures profile == old(profile).(audioContext := Some(ModeSeed(AudioContextMode.Mask, seed)))
    {
      WithAudioContextMode(AudioContextMode.Mask, seed);
    }

    method WithMaskClientRects(seed: Option<string>)
      modifies this`profile
      ensures profile == old(profile).(clientRects := Some(ModeSeed(ClientRectsMode.Mask, seed)))
    {
      WithClientRectsMode(ClientRectsMode.Mask, seed);
    }

    method WithMaskFont(seed: Option<string>)
      modifies this`profile
      ensures profile == old(profile).(font := Some(ModeSeed(FontMode.Mask, seed)))
    {
      WithFontMode(FontMode.Mask, seed);
    }

    method WithMaskWebGLImage(seed: Option<string>)
      modifies this`profile
      ensures profile == old(profile).(webGLImage := Some(ModeSeed(WebGLImageMode.Mask, seed)))
    {
      WithWebGLImageMode(WebGLImageMode.Mask, seed);
    }

    method WithMaskWebGLMetadata(seed: Option<string>)
      modifies this`profile
      ensures profile == old(profile).(webGLMetadata := Some(ModeSeedCustom(WebGLMetadataMode.Mask, seed, None)))
    {
      WithWebGLMetadataMode(WebGLMetadataMode.Mask, seed);
    }

    method WithSystemMediaDevices()
      modifies this`profile
      ensures profile == old(profile).(mediaDevices := Some(ModeSeed(MediaDevicesMode.System, None)))
    {
      WithMediaDevicesMode(MediaDevicesMode.System, None);
    }

    // ----- finalisers

    /** The create payload: the id (possibly absent), the tag list even when
        empty, and the accumulated profile. */
    function BuildPayload(): (r: ProfileCreateRequest)
      reads this
      ensures r.id == id && r.tags == Some(tags) && r.data == profile
    {
      ProfileCreateRequest(id, profile, Some(tags))
    }

    /** The update payload: no id, and tags only when there are any. */
    function BuildUpdatePayload(): (r: ProfileUpdateRequest)
      reads this
      ensures r.data == profile
      ensures r.tags.None? <==> tags == []
      ensures r.tags.Some? ==> r.tags.value == tags
    {
      ProfileUpdateRequest(profile, if |tags| > 0 then Some(tags) else None)
    }
  }
}
