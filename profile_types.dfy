/**
 * The profile records: the fingerprint fields with the modes each one admits,
 * `ProfileData` and the request and response shapes built from it. Every key
 * that is optional in the wire format is an `Option`.
 */
module ProfileTypes {
  import opened Wrappers
  import Proxy

  /** `Browser`: the only browser type is Specter, with an optional version. */
  datatype Browser = Specter(version: Option<string>)

  /** `OS`, a closed sum of three variants; the constructors are the entries of
      the `OS` constant table. */
  datatype OS = Windows | Linux | Android

  // ------------------------------------------------------------- modes
  // Which modes a field admits is fixed per field: some have a Custom variant,
  // some only System and Mask, and two use BasedIP instead of Mask.

  datatype UserAgentMode = System | Mask | Custom
  datatype NavigatorMode = System | Mask | Custom
  datatype ScreenMode = System | Mask | Custom
  datatype WebGLMetadataMode = System | Mask | Custom
  datatype MediaDevicesMode = System | Mask
  datatype WebGLImageMode = System | Mask
  datatype CanvasMode = System | Mask
  datatype AudioContextMode = System | Mask
  datatype ClientRectsMode = System | Mask
  datatype FontMode = System | Mask
  datatype TimeZoneMode = System | BasedIP | Custom
  datatype LanguageMode = System | BasedIP | Custom
  /** Geolocation has no System mode. */
  datatype GeolocationMode = BasedIP | Custom

  // ------------------------------------------------------------- field shapes

  /** A field with a mode and an optional custom payload but no seed. */
  datatype ModeCustom<M, C> = ModeCustom(mode: M, custom: Option<C>)

  /** A field with a mode and an optional seed. */
  datatype ModeSeed<M> = ModeSeed(mode: M, seed: Option<string>)

  /** A field with a mode, an optional seed and an optional custom payload. */
  datatype ModeSeedCustom<M, C> = ModeSeedCustom(mode: M, seed: Option<string>, custom: Option<C>)

  /** A field with a mode and an optional value, with no seed. */
  datatype ModeValue<M, V> = ModeValue(mode: M, value: Option<V>)

  datatype UserAgentMetadata = UserAgentMetadata(
    architecture: string, mobile: bool, model: string, platform: string,
    platformVersion: string, bitness: string, wow64: bool)

  datatype UserAgentCustom = UserAgentCustom(value: string, metadata: UserAgentMetadata)

  datatype NavigatorCustom = NavigatorCustom(
    platform: string, hardwareConcurrency: Number, deviceMemory: Number, maxTouchPoints: Number)

  datatype ScreenCustom = ScreenCustom(
    width: Number, height: Number, availWidth: Number, availHeight: Number, devicePixelRatio: Number)

  datatype WebGLMetadataCustom = WebGLMetadataCustom(vendor: string, renderer: string)

  datatype GeolocationCustom = GeolocationCustom(latitude: Number, longitude: Number, accuracy: Number)

  /** `UserAgent` has no seed. */
  type UserAgent = ModeCustom<UserAgentMode, UserAgentCustom>
  type Navigator = ModeSeedCustom<NavigatorMode, NavigatorCustom>
  type Screen = ModeSeedCustom<ScreenMode, ScreenCustom>
  type WebGLMetadata = ModeSeedCustom<WebGLMetadataMode, WebGLMetadataCustom>
  type MediaDevices = ModeSeed<MediaDevicesMode>
  type WebGLImage = ModeSeed<WebGLImageMode>
  type Canvas = ModeSeed<CanvasMode>
  type AudioContext = ModeSeed<AudioContextMode>
  type ClientRects = ModeSeed<ClientRectsMode>
  type Font = ModeSeed<FontMode>
  /** The value is an IANA time zone name. */
  type TimeZone = ModeValue<TimeZoneMode, string>
  type Language = ModeValue<LanguageMode, seq<string>>
  type Geolocation = ModeCustom<GeolocationMode, GeolocationCustom>

  // ------------------------------------------------------------- other settings

  datatype Extension = Extension(id: string, name: string, path: string)

  /** The resolved extension `list` and the four intent lists the service acts on. */
  datatype ExtensionManager = ExtensionManager(
    list: Option<seq<Extension>>,
    installPaths: Option<seq<string>>,
    uninstallIds: Option<seq<string>>,
    disabledIds: Option<seq<string>>,
    pinnedIds: Option<seq<string>>)

  const EmptyExtensionManager := ExtensionManager(None, None, None, None, None)

  datatype PermissionState = Allow | Prompt | Block

  datatype Permissions = Permissions(geolocation: Option<PermissionState>, notifications: Option<PermissionState>)

  const EmptyPermissions := Permissions(None, None)

  datatype Dns = Dns(address: string)

  datatype RestoreOnStartupMode = Default | Last | Urls

  datatype RestoreOnStartup = RestoreOnStartup(mode: RestoreOnStartupMode, urls: Option<seq<string>>)

  // ------------------------------------------------------------- the profile

  /** `ProfileData`: every key is optional, so it also serves as `Partial<ProfileData>`. */
  datatype ProfileData = ProfileData(
    pinned: Option<bool>,
    profileName: Option<string>,
    profileIcon: Option<string>,
    os: Option<OS>,
    browser: Option<Browser>,
    proxy: Option<Proxy.NetworkProxy>,
    doNotTrack: Option<bool>,
    userAgent: Option<UserAgent>,
    navigator: Option<Navigator>,
    screen: Option<Screen>,
    mediaDevices: Option<MediaDevices>,
    webGLMetadata: Option<WebGLMetadata>,
    timeZone: Option<TimeZone>,
    language: Option<Language>,
    geolocation: Option<Geolocation>,
    canvas: Option<Canvas>,
    audioContext: Option<AudioContext>,
    clientRects: Option<ClientRects>,
    font: Option<Font>,
    webGLImage: Option<WebGLImage>,
    extensionManager: Option<ExtensionManager>,
    permissions: Option<Permissions>,
    note: Option<string>,
    restoreOnStartup: Option<RestoreOnStartup>,
    dns: Option<Dns>,
    commandLineSwitches: Option<seq<string>>)

  /** The object `{}`. */
  const EmptyProfile := ProfileData(
    None, None, None, None, None, None, None, None, None, None, None, None, None,
    None, None, None, None, None, None, None, None, None, None, None, None, None)

  /** A create request may name the id; an update request cannot. */
  datatype ProfileCreateRequest = ProfileCreateRequest(id: Option<string>, data: ProfileData, tags: Option<seq<string>>)
  datatype ProfileUpdateRequest = ProfileUpdateRequest(data: ProfileData, tags: Option<seq<string>>)

  /** A profile as the service returns it; `deletedAt` and `lastRunAt` may also be `null`. */
  datatype ProfileDetail = ProfileDetail(
    id: string,
    data: ProfileData,
    tags: seq<string>,
    createdAt: Option<string>,
    updatedAt: Option<string>,
    deletedAt: Option<Nullable<string>>,
    lastRunAt: Option<Nullable<string>>)

  datatype ProfileSearchRequest = ProfileSearchRequest(tags: Option<seq<string>>)

  datatype ProfileOpenRequest = ProfileOpenRequest(
    debuggingPort: Option<Number>, headless: Option<bool>, commandLineSwitches: Option<seq<string>>)

  /** The object `{}` sent when `open` is called without a request. */
  const EmptyOpenRequest := ProfileOpenRequest(None, None, None)

  datatype CookieData = CookieData(
    domain: string, expirationDate: Number, hostOnly: bool, httpOnly: bool, name: string,
    path: string, sameSite: string, secure: bool, session: bool, storeId: string, value: string)

  datatype GeolocationData = GeolocationData(
    ip: string, isoCode: string, country: string, city: string, languages: seq<string>, timeZone: string)
}
