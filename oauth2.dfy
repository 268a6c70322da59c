/**
 * OAuth path-parameter parsing and client-configuration selection. The
 * service and platform come from the URL path; the configuration is built
 * from the server's settings for that provider.
 */
module OAuth2 {
  import opened Results

  /**
   * `config.Platform`, a string type: the two named values, and
   * `OtherPlatform` for every string other than theirs.
   */
  datatype Platform = Web | Android | OtherPlatform

  /** `config.OauthService`, likewise open: `OtherService` is every other string. */
  datatype OauthService = Google | Yandex | OtherService

  datatype OauthError = ErrUnknownPlatform | ErrUnknownService

  function ParsePlatform(s: string): (r: Result<Platform, OauthError>)
    ensures r == Ok(Web) <==> s == "web"
    ensures r == Ok(Android) <==> s == "android"
    ensures r.Err? <==> s != "web" && s != "android"
    ensures r.Err? ==> r.error == ErrUnknownPlatform
  {
    match s
    case "web" => Ok(Web)
    case "android" => Ok(Android)
    case _ => Err(ErrUnknownPlatform)
  }

  function ParseService(s: string): (r: Result<OauthService, OauthError>)
    ensures r == Ok(Google) <==> s == "google"
    ensures r == Ok(Yandex) <==> s == "yandex"
    ensures r.Err? <==> s != "google" && s != "yandex"
    ensures r.Err? ==> r.error == ErrUnknownService
  {
    match s
    case "google" => Ok(Google)
    case "yandex" => Ok(Yandex)
    case _ => Err(ErrUnknownService)
  }

  /** The path segment that selects a platform, if it has one. */
  function PlatformSegment(p: Platform): Option<string>
  {
    match p
    case Web => Some("web")
    case Android => Some("android")
    case OtherPlatform => None
  }

  /** The path segment that selects a service, if it has one. */
  function ServiceSegment(s: OauthService): Option<string>
  {
    match s
    case Google => Some("google")
    case Yandex => Some("yandex")
    case OtherService => None
  }

  /** Exactly the named values have a segment, and parsing it gives them back. */
  lemma ParseSegmentRoundTrip(p: Platform, s: OauthService)
    ensures PlatformSegment(p).None? <==> p == OtherPlatform
    ensures PlatformSegment(p).Some? ==> ParsePlatform(PlatformSegment(p).value) == Ok(p)
    ensures ServiceSegment(s).None? <==> s == OtherService
    ensures ServiceSegment(s).Some? ==> ParseService(ServiceSegment(s).value) == Ok(s)
  {
  }

  /** A parsed value is always a named one, and its segment is the input. */
  lemma ParsedSegments(platformParam: string, serviceParam: string)
    ensures ParsePlatform(platformParam).Ok? ==>
      PlatformSegment(ParsePlatform(platformParam).value) == Some(platformParam)
    ensures ParseService(serviceParam).Ok? ==>
      ServiceSegment(ParseService(serviceParam).value) == Some(serviceParam)
  {
  }

  datatype Callbacks = Callbacks(web: string, android: string)

  /** One provider's section of the server configuration. */
  datatype ProviderSettings = ProviderSettings(clientId: string, clientSecret: string,
                                               scopes: seq<string>, callbacks: Callbacks)

  datatype Oauth2Settings = Oauth2Settings(google: ProviderSettings, yandex: ProviderSettings)

  /** The providers' fixed authorization and token endpoints. */
  datatype Endpoint = GoogleEndpoint | YandexEndpoint

  /** The fields of an `oauth2.Config` the server sets. */
  datatype ClientConfig = ClientConfig(clientId: string, clientSecret: string, scopes: seq<string>,
                                       endpoint: Endpoint, redirectUrl: string)

  /** The settings a named provider uses. */
  function Provider(settings: Oauth2Settings, service: OauthService): ProviderSettings
    requires !service.OtherService?
  {
    if service == Google then settings.google else settings.yandex
  }

  /** The redirect URL for a platform: its callback, or empty for an unnamed platform. */
  function RedirectFor(callbacks: Callbacks, platform: Platform): string
  {
    match platform
    case Web => callbacks.web
    case Android => callbacks.android
    case OtherPlatform => ""
  }

  function OauthConfig(settings: Oauth2Settings, service: OauthService, platform: Platform): (r: Result<ClientConfig, OauthError>)
    // Fails, with ErrUnknownService, exactly for a service that is neither provider.
    ensures r.Err? <==> service.OtherService?
    ensures r.Err? ==> r.error == ErrUnknownService
    // Otherwise every credential comes from the chosen provider's settings,
    // the endpoint is that provider's, and the redirect follows the platform.
    ensures r.Ok? ==>
      var p := Provider(settings, service);
      && r.value.clientId == p.clientId
      && r.value.clientSecret == p.clientSecret
      && r.value.scopes == p.scopes
      && r.value.endpoint == (if service == Google then GoogleEndpoint else YandexEndpoint)
      && r.value.redirectUrl == RedirectFor(p.callbacks, platform)
  {
    match service
    case Google =>
      var g := settings.google;
      var cfg := ClientConfig(g.clientId, g.clientSecret, g.scopes, GoogleEndpoint, "");
      Ok(match platform
         case Web => cfg.(redirectUrl := g.callbacks.web)
         case Android => cfg.(redirectUrl := g.callbacks.android)
         case OtherPlatform => cfg)
    case Yandex =>
      var y := settings.yandex;
      var cfg := ClientConfig(y.clientId, y.clientSecret, y.scopes, YandexEndpoint, "");
      Ok(match platform
         case Web => cfg.(redirectUrl := y.callbacks.web)
         case Android => cfg.(redirectUrl := y.callbacks.android)
         case OtherPlatform => cfg)
    case OtherService => Err(ErrUnknownService)
  }

  /**
   * The gate both handlers run first: the service segment, then the platform
   * segment; the first one that does not parse gives the error.
   */
  function ParseRoute(serviceParam: string, platformParam: string): (r: Result<(OauthService, Platform), OauthError>)
    ensures ParseService(serviceParam).Err? ==> r == Err(ErrUnknownService)
    ensures ParseService(serviceParam).Ok? && ParsePlatform(platformParam).Err? ==> r == Err(ErrUnknownPlatform)
    ensures r.Ok? <==> ParseService(serviceParam).Ok? && ParsePlatform(platformParam).Ok?
    ensures r.Ok? ==> r.value == (ParseService(serviceParam).value, ParsePlatform(platformParam).value)
  {
    match ParseService(serviceParam)
    case Err(e) => Err(e)
    case Ok(service) =>
      match ParsePlatform(platformParam)
      case Err(e) => Err(e)
      case Ok(platform) => Ok((service, platform))
  }

  /** What `oauth2Login` answers: 404, or a redirect built from this configuration. */
  datatype LoginResponse = LoginNotFound | RedirectToProvider(config: ClientConfig)

  function OauthLogin(settings: Oauth2Settings, serviceParam: string, platformParam: string): (r: LoginResponse)
    // Not found exactly when a path segment does not parse: the later
    // not-found branches of the handler cannot be reached.
    ensures r.LoginNotFound? <==> ParseRoute(serviceParam, platformParam).Err?
    ensures r.RedirectToProvider? ==>
      var route := ParseRoute(serviceParam, platformParam).value;
      Ok(r.config) == OauthConfig(settings, route.0, route.1)
  {
    match ParseRoute(serviceParam, platformParam)
    case Err(_) => LoginNotFound
    case Ok((service, platform)) =>
      match service
      case Google =>
        (match OauthConfig(settings, Google, platform)
         case Err(_) => LoginNotFound
         case Ok(cfg) => RedirectToProvider(cfg))
      case Yandex =>
        (match OauthConfig(settings, Yandex, platform)
         case Err(_) => LoginNotFound
         case Ok(cfg) => RedirectToProvider(cfg))
      case OtherService => LoginNotFound
  }

  /** What `oauth2Callback` does: 404, or hand the request to that provider's exchange. */
  datatype CallbackResponse = CallbackNotFound | ExchangeWith(service: OauthService, platform: Platform)

  function OauthCallback(serviceParam: string, platformParam: string): (r: CallbackResponse)
    ensures r.CallbackNotFound? <==> ParseRoute(serviceParam, platformParam).Err?
    ensures r.ExchangeWith? ==>
      && (r.service == Google || r.service == Yandex)
      && (r.platform == Web || r.platform == Android)
      && ServiceSegment(r.service) == Some(serviceParam) && PlatformSegment(r.platform) == Some(platformParam)
  {
    match ParseRoute(serviceParam, platformParam)
    case Err(_) => CallbackNotFound
    case Ok((service, platform)) =>
      match service
      case Google => ExchangeWith(Google, platform)
      case Yandex => ExchangeWith(Yandex, platform)
      case OtherService => CallbackNotFound
  }

  /**
   * Exactly the four routes that name a provider and a platform are served,
   * by both handlers alike.
   */
  lemma ServedRoutes(settings: Oauth2Settings, serviceParam: string, platformParam: string)
    ensures OauthLogin(settings, serviceParam, platformParam).RedirectToProvider? <==>
            (serviceParam == "google" || serviceParam == "yandex") && (platformParam == "web" || platformParam == "android")
    ensures OauthCallback(serviceParam, platformParam).ExchangeWith? <==>
            OauthLogin(settings, serviceParam, platformParam).RedirectToProvider?
  {
  }

  /**
   * Each of the four served routes redirects with the named provider's
   * credentials, scopes and endpoint, and the callback registered for the
   * named platform.
   */
  lemma LoginRedirects(settings: Oauth2Settings, serviceParam: string, platformParam: string)
    requires ParseRoute(serviceParam, platformParam).Ok?
    ensures var p := if serviceParam == "google" then settings.google else settings.yandex;
      OauthLogin(settings, serviceParam, platformParam) ==
      RedirectToProvider(ClientConfig(p.clientId, p.clientSecret, p.scopes,
                                      if serviceParam == "google" then GoogleEndpoint else YandexEndpoint,
                                      if platformParam == "web" then p.callbacks.web else p.callbacks.android))
  {
  }
}
