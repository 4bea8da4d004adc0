/**
 * The extension as a value and the specification of BuildDefaultTykExtension:
 * the three-way merge of document defaults, an existing extension and overrides.
 */
module Defaults {
  import opened Common
  import opened OasDocument
  import opened ServerUrl
  import opened ConfigParams
  import opened Security
  import opened Middlewares

  datatype State = State(active: bool)

  datatype Info = Info(name: string, state: State)

  datatype Server = Server(listenPath: string, customDomain: string, authentication: Option<Authentication>)

  datatype Upstream = Upstream(url: string)

  /** The contents of the x-tyk-api-gateway extension. */
  datatype TykExtension = TykExtension(server: Server, upstream: Upstream, info: Info, middleware: Option<Middleware>)

  /** The extension a build starts from when the document has none. */
  const EmptyExtension := TykExtension(Server("", "", None), Upstream(""), Info("", State(false)), None)

  const DefaultListenPath: string := "/"

  /** The outcome of a build that passed URL validation; the error is the authentication import's. */
  datatype Built = Built(extension: TykExtension, importError: Option<Error>)

  function ExistingOrEmpty(existing: Option<TykExtension>): TykExtension
  {
    if existing.Some? then existing.value else EmptyExtension
  }

  /** The override, else "/" for a new extension, else the existing listen path. */
  function ResolveListenPath(p: TykExtensionConfigParams, existing: Option<TykExtension>): (r: string)
    ensures p.listenPath != "" ==> r == p.listenPath
    ensures existing.None? ==> r != ""
    ensures p.listenPath == "" && existing.Some? ==> r == existing.value.server.listenPath
  {
    if p.listenPath != "" then p.listenPath
    else if existing.None? then DefaultListenPath
    else existing.value.server.listenPath
  }

  /** Server, upstream and info after a build with a resolved upstream URL. */
  function ApplyServerDefaults(doc: Document, p: TykExtensionConfigParams, existing: Option<TykExtension>, upstreamUrl: string): (r: TykExtension)
    ensures r.upstream.url == upstreamUrl && r.info.state.active
    ensures r.server.listenPath == ResolveListenPath(p, existing)
    ensures p.customDomain != "" ==> r.server.customDomain == p.customDomain
    ensures p.customDomain == "" ==> r.server.customDomain == ExistingOrEmpty(existing).server.customDomain
    ensures ExistingOrEmpty(existing).info.name != "" ==> r.info.name == ExistingOrEmpty(existing).info.name
    ensures ExistingOrEmpty(existing).info.name == "" ==> r.info.name == doc.title
    ensures r.server.authentication == ExistingOrEmpty(existing).server.authentication
    ensures r.middleware == ExistingOrEmpty(existing).middleware
  {
    var e := ExistingOrEmpty(existing);
    e.(server := e.server.(listenPath := ResolveListenPath(p, existing),
                           customDomain := if p.customDomain != "" then p.customDomain else e.server.customDomain),
       upstream := Upstream(upstreamUrl),
       info := Info(if e.info.name == "" then doc.title else e.info.name, State(true)))
  }

  /** The allow-list pass, then the validate-request pass, each only when its override is present. */
  function ApplyMiddlewares(doc: Document, p: TykExtensionConfigParams, mw: Option<Middleware>): (r: Option<Middleware>)
    ensures p.allowList.None? && p.validateRequest.None? ==> r == mw
    ensures r.None? ==> mw.None?
    ensures mw.Some? ==> OperationsOf(mw).Keys <= r.value.operations.Keys
  {
    var afterAllow := if p.allowList.Some? then ImportPass(doc.paths, mw, AllowListPass(p.allowList.value)) else mw;
    if p.validateRequest.Some? then ImportPass(doc.paths, afterAllow, ValidateRequestPass(p.validateRequest.value))
    else afterAllow
  }

  /**
   * BuildDefaultTykExtension: URL errors reject the build before anything is
   * applied; an authentication error is reported after server and info were applied.
   */
  function BuildDefaultTykExtension(doc: Document, p: TykExtensionConfigParams, existing: Option<TykExtension>): (r: Result<Built>)
    ensures r.Err? <==> ResolveUpstream(doc.servers, p.upstreamUrl).Err?
    ensures r.Err? ==> r.error == ResolveUpstream(doc.servers, p.upstreamUrl).error
    ensures r.Ok? ==> IsAbsoluteUrl(r.value.extension.upstream.url) && r.value.extension.info.state.active
    ensures r.Ok? ==> (r.value.importError.Some? <==> p.authentication.Some? && |doc.security| == 0)
    ensures r.Ok? && r.value.importError.Some? ==> r.value.importError == Some(EmptySecurityObject)
    ensures r.Ok? && p.authentication.None? ==>
      r.value.extension.server.authentication == ExistingOrEmpty(existing).server.authentication
  {
    match ResolveUpstream(doc.servers, p.upstreamUrl)
    case Err(e) => Err(e)
    case Ok(url) =>
      var base := ApplyServerDefaults(doc, p, existing, url);
      if p.authentication.None? then
        Ok(Built(base.(middleware := ApplyMiddlewares(doc, p, base.middleware)), None))
      else
        match Security.ImportAuthentication(doc, base.server.authentication, p.authentication.value)
        case Err(e) => Ok(Built(base, Some(e)))
        case Ok(auth) =>
          var authed := base.(server := base.server.(authentication := Some(auth)));
          Ok(Built(authed.(middleware := ApplyMiddlewares(doc, p, authed.middleware)), None))
  }

  /** A fresh build without overrides: "/", the first server, the title, active, no middleware. */
  lemma FreshBuildDefaults(doc: Document)
    requires |doc.servers| > 0 && IsAbsoluteUrl(doc.servers[0])
    ensures BuildDefaultTykExtension(doc, NoParams, None) ==
      Ok(Built(TykExtension(Server(DefaultListenPath, "", None), Upstream(doc.servers[0]),
                            Info(doc.title, State(true)), None), None))
  {
  }

  /** A fresh build with listen-path, upstream and custom-domain overrides takes all three. */
  lemma FreshBuildWithParams(doc: Document, listenPath: string, upstreamUrl: string, customDomain: string)
    requires listenPath != "" && customDomain != ""
    requires upstreamUrl != "" && IsAbsoluteUrl(upstreamUrl)
    ensures BuildDefaultTykExtension(doc, TykExtensionConfigParams(listenPath, upstreamUrl, customDomain, None, None, None), None) ==
      Ok(Built(TykExtension(Server(listenPath, customDomain, None), Upstream(upstreamUrl),
                            Info(doc.title, State(true)), None), None))
  {
  }

  /**
   * An existing extension without overrides keeps its listen path, custom domain,
   * authentication, middleware and non-empty name, is forced active, and an empty
   * upstream is filled from the first server.
   */
  lemma ExistingKeptWithoutParams(doc: Document, e: TykExtension)
    requires |doc.servers| > 0 && IsAbsoluteUrl(doc.servers[0])
    ensures var r := BuildDefaultTykExtension(doc, NoParams, Some(e));
      r.Ok? && r.value.importError.None? &&
      r.value.extension.server == e.server &&
      r.value.extension.middleware == e.middleware &&
      r.value.extension.info.state.active &&
      (e.info.name != "" ==> r.value.extension.info.name == e.info.name) &&
      (e.upstream.url == "" ==> r.value.extension.upstream.url == doc.servers[0])
  {
  }

  /** Overrides replace listen path, custom domain and upstream of an existing extension; its name stays. */
  lemma ExistingOverriddenByParams(doc: Document, e: TykExtension, p: TykExtensionConfigParams)
    requires p.listenPath != "" && p.customDomain != ""
    requires p.upstreamUrl != "" && IsAbsoluteUrl(p.upstreamUrl)
    requires e.info.name != ""
    ensures var r := BuildDefaultTykExtension(doc, p, Some(e));
      r.Ok? &&
      r.value.extension.server.listenPath == p.listenPath &&
      r.value.extension.server.customDomain == p.customDomain &&
      r.value.extension.upstream.url == p.upstreamUrl &&
      r.value.extension.info == Info(e.info.name, State(true))
  {
  }

  /** The three URL sentinels, whether or not an extension exists. */
  lemma BuildUrlErrors(doc: Document, p: TykExtensionConfigParams, existing: Option<TykExtension>)
    ensures p.upstreamUrl != "" && !IsAbsoluteUrl(p.upstreamUrl) ==>
      BuildDefaultTykExtension(doc, p, existing) == Err(InvalidUpstreamURL)
    ensures p.upstreamUrl == "" && |doc.servers| == 0 ==>
      BuildDefaultTykExtension(doc, p, existing) == Err(EmptyServersObject)
    ensures p.upstreamUrl == "" && |doc.servers| > 0 && !IsAbsoluteUrl(doc.servers[0]) ==>
      BuildDefaultTykExtension(doc, p, existing) == Err(InvalidServerURL)
    ensures BuildDefaultTykExtension(doc, p, existing).Err? <==>
      (if p.upstreamUrl != "" then !IsAbsoluteUrl(p.upstreamUrl)
       else |doc.servers| == 0 || !IsAbsoluteUrl(doc.servers[0]))
  {
  }

  /** Whether a build fails, and with which error, does not depend on the existing extension. */
  lemma BuildErrorIndependentOfExtension(doc: Document, p: TykExtensionConfigParams, e1: Option<TykExtension>, e2: Option<TykExtension>)
    ensures BuildDefaultTykExtension(doc, p, e1).Err? == BuildDefaultTykExtension(doc, p, e2).Err?
    ensures BuildDefaultTykExtension(doc, p, e1).Err? ==>
      BuildDefaultTykExtension(doc, p, e1) == BuildDefaultTykExtension(doc, p, e2)
  {
  }

  /** Requested authentication on a document without security requirements reports EmptySecurityObject and leaves authentication and middleware alone. */
  lemma BuildAuthenticationError(doc: Document, p: TykExtensionConfigParams, existing: Option<TykExtension>)
    requires ResolveUpstream(doc.servers, p.upstreamUrl).Ok?
    requires p.authentication.Some? && |doc.security| == 0
    ensures var r := BuildDefaultTykExtension(doc, p, existing);
      r.Ok? && r.value.importError == Some(EmptySecurityObject) &&
      r.value.extension.server.authentication == ExistingOrEmpty(existing).server.authentication &&
      r.value.extension.middleware == ExistingOrEmpty(existing).middleware
  {
  }

  /** Requested authentication is imported into the existing authentication section. */
  lemma BuildImportsAuthentication(doc: Document, p: TykExtensionConfigParams, existing: Option<TykExtension>)
    requires ResolveUpstream(doc.servers, p.upstreamUrl).Ok?
    requires p.authentication.Some? && |doc.security| > 0
    ensures var r := BuildDefaultTykExtension(doc, p, existing);
      r.Ok? && r.value.importError.None? &&
      r.value.extension.server.authentication ==
        Some(Security.ImportAuthentication(doc, ExistingOrEmpty(existing).server.authentication, p.authentication.value).value)
  {
  }

  /** Without authentication, allow-list and validate-request overrides the existing authentication and middleware are kept exactly. */
  lemma AbsentOverridesPreserveState(doc: Document, p: TykExtensionConfigParams, existing: Option<TykExtension>)
    requires ResolveUpstream(doc.servers, p.upstreamUrl).Ok?
    requires p.authentication.None? && p.allowList.None? && p.validateRequest.None?
    ensures var r := BuildDefaultTykExtension(doc, p, existing);
      r.Ok? && r.value.importError.None? &&
      r.value.extension.server.authentication == ExistingOrEmpty(existing).server.authentication &&
      r.value.extension.middleware == ExistingOrEmpty(existing).middleware
  {
  }

  /** A present allow-list override (and no validation override) runs exactly the allow-list pass. */
  lemma BuildRunsAllowList(doc: Document, p: TykExtensionConfigParams, existing: Option<TykExtension>)
    requires ResolveUpstream(doc.servers, p.upstreamUrl).Ok?
    requires p.authentication.None? && p.allowList.Some? && p.validateRequest.None?
    ensures var r := BuildDefaultTykExtension(doc, p, existing);
      r.Ok? && r.value.extension.middleware ==
        ImportPass(doc.paths, ExistingOrEmpty(existing).middleware, AllowListPass(p.allowList.value))
  {
  }

  /** A present validation override (and no allow-list override) runs exactly the validate-request pass. */
  lemma BuildRunsValidateRequest(doc: Document, p: TykExtensionConfigParams, existing: Option<TykExtension>)
    requires ResolveUpstream(doc.servers, p.upstreamUrl).Ok?
    requires p.authentication.None? && p.allowList.None? && p.validateRequest.Some?
    ensures var r := BuildDefaultTykExtension(doc, p, existing);
      r.Ok? && r.value.extension.middleware ==
        ImportPass(doc.paths, ExistingOrEmpty(existing).middleware, ValidateRequestPass(p.validateRequest.value))
  {
  }

  /** Running the middleware passes again on their own result changes nothing. */
  lemma ApplyMiddlewaresIdempotent(doc: Document, p: TykExtensionConfigParams, mw: Option<Middleware>)
    ensures ApplyMiddlewares(doc, p, ApplyMiddlewares(doc, p, mw)) == ApplyMiddlewares(doc, p, mw)
  {
    if p.allowList.Some? && p.validateRequest.Some? {
      var a, v := AllowListPass(p.allowList.value), ValidateRequestPass(p.validateRequest.value);
      var once := ImportPass(doc.paths, ImportPass(doc.paths, mw, a), v);
      calc {
        ImportPass(doc.paths, ImportPass(doc.paths, once, a), v);
        { ImportPassCommute(doc.paths, ImportPass(doc.paths, mw, a), p.allowList.value, p.validateRequest.value); }
        ImportPass(doc.paths, ImportPass(doc.paths, ImportPass(doc.paths, ImportPass(doc.paths, mw, a), a), v), v);
        { ImportPassIdempotent(doc.paths, mw, a); }
        ImportPass(doc.paths, ImportPass(doc.paths, ImportPass(doc.paths, mw, a), v), v);
        { ImportPassIdempotent(doc.paths, ImportPass(doc.paths, mw, a), v); }
        once;
      }
    } else if p.allowList.Some? {
      ImportPassIdempotent(doc.paths, mw, AllowListPass(p.allowList.value));
    } else if p.validateRequest.Some? {
      ImportPassIdempotent(doc.paths, mw, ValidateRequestPass(p.validateRequest.value));
    }
  }

  /**
   * A second build with the same document and overrides, starting from the
   * extension the first build produced, produces the identical outcome.
   */
  lemma BuildIdempotent(doc: Document, p: TykExtensionConfigParams, existing: Option<TykExtension>)
    requires BuildDefaultTykExtension(doc, p, existing).Ok?
    ensures var first := BuildDefaultTykExtension(doc, p, existing).value;
      BuildDefaultTykExtension(doc, p, Some(first.extension)) == Ok(first)
  {
    var first := BuildDefaultTykExtension(doc, p, existing).value;
    var url := ResolveUpstream(doc.servers, p.upstreamUrl).value;
    var base := ApplyServerDefaults(doc, p, existing, url);
    var base2 := ApplyServerDefaults(doc, p, Some(first.extension), url);
    if p.authentication.None? {
      assert base2 == first.extension;
      ApplyMiddlewaresIdempotent(doc, p, base.middleware);
    } else if |doc.security| == 0 {
      assert base2 == base;
    } else {
      var enable := p.authentication.value;
      ImportAuthenticationIdempotent(doc, base.server.authentication, enable);
      var auth := Security.ImportAuthentication(doc, base.server.authentication, enable).value;
      var authed := base.(server := base.server.(authentication := Some(auth)));
      ApplyMiddlewaresIdempotent(doc, p, authed.middleware);
      assert base2 == first.extension;
    }
  }
}
