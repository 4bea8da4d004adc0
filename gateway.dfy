/**
 * The document with its attached extension, and the in-place operations on
 * them: the extension accessor, authentication import, middleware passes and
 * BuildDefaultTykExtension.
 */
module Gateway {
  import opened Common
  import opened OasDocument
  import opened OperationId
  import opened ServerUrl
  import opened ConfigParams
  import opened Security
  import opened Middlewares
  import opened Defaults

  /** The x-tyk-api-gateway extension object, updated in place. */
  class XTykAPIGateway {
    var server: Server
    var upstream: Upstream
    var info: Info
    var middleware: Option<Middleware>

    constructor ()
      ensures Value() == EmptyExtension
    {
      server := Server("", "", None);
      upstream := Upstream("");
      info := Info("", State(false));
      middleware := None;
    }

    /** The extension's current contents. */
    function Value(): TykExtension
      reads this
    {
      TykExtension(server, upstream, info, middleware)
    }

    /**
     * Applies a build's listen path, custom domain, resolved upstream, name and
     * active state; `existed` says whether the extension was attached before the build.
     */
    method ApplyServerDefaults(doc: Document, p: TykExtensionConfigParams, existed: bool, upstreamUrl: string)
      requires !existed ==> Value() == EmptyExtension
      modifies this
      ensures Value() == Defaults.ApplyServerDefaults(doc, p, if existed then Some(old(Value())) else None, upstreamUrl)
    {
      if p.listenPath != "" {
        server := server.(listenPath := p.listenPath);
      } else if !existed {
        server := server.(listenPath := DefaultListenPath);
      }
      if p.customDomain != "" {
        server := server.(customDomain := p.customDomain);
      }
      upstream := Upstream(upstreamUrl);
      if info.name == "" {
        info := info.(name := doc.title);
      }
      info := info.(state := State(true));
    }

    /** Stores one operation's middleware, creating the middleware section when it is absent. */
    method SetOperation(key: string, op: Operation)
      modifies this
      ensures Value() == old(Value()).(middleware := Some(Middleware(OperationsOf(old(middleware))[key := op])))
    {
      middleware := Some(Middleware(OperationsOf(middleware)[key := op]));
    }
  }

  /** An OpenAPI document together with the extension attached to it (or none). */
  class OAS {
    const document: Document
    var extension: XTykAPIGateway?

    constructor (doc: Document)
      ensures document == doc && extension == null
    {
      document := doc;
      extension := null;
    }

    method GetTykExtension() returns (e: XTykAPIGateway?)
      ensures e == extension
    {
      e := extension;
    }

    method SetTykExtension(e: XTykAPIGateway?)
      modifies this
      ensures extension == e
    {
      extension := e;
    }

    /** The attached extension's contents, if one is attached. */
    function ExtensionValue(): Option<TykExtension>
      reads this, extension
    {
      if extension == null then None else Some(extension.Value())
    }

    /**
     * One middleware pass: every operation of the document is visited once and,
     * when the pass applies to it, its entry is written under its operation key.
     */
    method ImportPass(pass: Pass)
      requires extension != null
      modifies extension
      ensures extension.Value() ==
        old(extension.Value()).(middleware := Middlewares.ImportPass(document.paths, old(extension.middleware), pass))
    {
      var ext := extension;
      ghost var start := ext.Value();
      ghost var ops0 := OperationsOf(ext.middleware);
      var todo := document.paths.Keys;
      PassOverEmpty(ops0, document.paths, pass);
      while todo != {}
        invariant todo <= document.paths.Keys
        invariant ext.server == start.server && ext.upstream == start.upstream && ext.info == start.info
        invariant ext.middleware ==
          if QualifyingKeys(document.paths, document.paths.Keys - todo, pass) == {} then start.middleware
          else Some(Middleware(PassOver(ops0, document.paths, document.paths.Keys - todo, pass)))
        decreases todo
      {
        var pm :| pm in todo;
        ghost var done := document.paths.Keys - todo;
        PassOverStep(ops0, document.paths, done, pm, pass);
        var op := document.paths[pm];
        if Applies(pass, op) {
          var key := OperationKey(pm.0, pm.1, op);
          if QualifyingKeys(document.paths, done, pass) == {} {
            PassOverEmpty(ops0, document.paths, pass);
            assert PassOver(ops0, document.paths, done, pass) == ops0 by {
              assert forall k :: k !in QualifyingKeys(document.paths, done, pass);
            }
          }
          ext.SetOperation(key, ApplyPass(pass, LookupOperation(OperationsOf(ext.middleware), key)));
          assert key in QualifyingKeys(document.paths, done + {pm}, pass);
        } else {
          assert QualifyingKeys(document.paths, done + {pm}, pass) == QualifyingKeys(document.paths, done, pass);
        }
        assert document.paths.Keys - (todo - {pm}) == done + {pm};
        todo := todo - {pm};
      }
      assert document.paths.Keys - todo == document.paths.Keys;
    }

    /**
     * importAuthentication: with no security requirements it reports
     * EmptySecurityObject and changes nothing; otherwise it creates the
     * authentication section if needed, sets its enabled flag and imports the
     * scheme of every name each requirement lists.
     */
    method ImportAuthentication(enable: bool) returns (err: Option<Error>)
      requires |document.security| == 0 || extension != null
      modifies extension
      ensures |document.security| == 0 ==>
        err == Some(EmptySecurityObject) && (extension != null ==> extension.Value() == old(extension.Value()))
      ensures |document.security| > 0 ==>
        err.None? &&
        extension.Value() == old(extension.Value()).(server := old(extension.server).(authentication :=
          Some(Security.ImportAuthentication(document, old(extension.server.authentication), enable).value)))
    {
      if |document.security| == 0 {
        return Some(EmptySecurityObject);
      }
      var ext := extension;
      var registry := document.securitySchemes;
      var security := document.security;
      ghost var start := ext.Value();
      var ss0 := SchemesOf(ext.server.authentication);
      ext.server := ext.server.(authentication := Some(Authentication(enable, ss0)));
      ImportNamesEmpty(ss0, registry, enable);
      assert RequirementNames(security[..0]) == {};
      var i := 0;
      while i < |security|
        invariant 0 <= i <= |security|
        invariant ext.Value() == start.(server := start.server.(authentication :=
          Some(Authentication(enable, ImportNames(ss0, registry, RequirementNames(security[..i]), enable)))))
      {
        var todo := security[i];
        ghost var before := RequirementNames(security[..i]);
        assert before + (security[i] - todo) == before;
        while todo != {}
          invariant todo <= security[i]
          invariant ext.Value() == start.(server := start.server.(authentication :=
            Some(Authentication(enable, ImportNames(ss0, registry, before + (security[i] - todo), enable)))))
          decreases todo
        {
          var name :| name in todo;
          ghost var seen := before + (security[i] - todo);
          ImportNamesStep(ss0, registry, seen, name, enable);
          if name in registry {
            var tokens := ext.server.authentication.value.securitySchemes;
            ext.server := ext.server.(authentication := Some(Authentication(enable, ImportScheme(tokens, name, registry[name], enable))));
          }
          assert before + (security[i] - (todo - {name})) == seen + {name};
          todo := todo - {name};
        }
        assert before + (security[i] - todo) == before + security[i];
        RequirementNamesPrefix(security, i);
        i := i + 1;
      }
      assert security[..|security|] == security;
      err := None;
    }

    /**
     * BuildDefaultTykExtension: resolves the upstream first and, on a URL error,
     * returns it with nothing changed; otherwise attaches a new extension when
     * none exists and applies listen path, custom domain, upstream, name and
     * active state, then the requested authentication import and middleware passes.
     */
    method BuildDefaultTykExtension(p: TykExtensionConfigParams) returns (err: Option<Error>)
      modifies this, extension
      ensures var r := Defaults.BuildDefaultTykExtension(document, p, old(ExtensionValue()));
        if r.Err? then
          err == Some(r.error) && extension == old(extension) &&
          (extension != null ==> extension.Value() == old(extension.Value()))
        else
          err == r.value.importError && extension != null && extension.Value() == r.value.extension &&
          (old(extension) != null ==> extension == old(extension)) &&
          (old(extension) == null ==> fresh(extension))
    {
      var resolved := ResolveUpstream(document.servers, p.upstreamUrl);
      if resolved.Err? {
        return Some(resolved.error);
      }
      var existed := extension != null;
      if extension == null {
        extension := new XTykAPIGateway();
      }
      ghost var existing := if existed then Some(extension.Value()) else None;
      ghost var base := Defaults.ApplyServerDefaults(document, p, existing, resolved.value);
      extension.ApplyServerDefaults(document, p, existed, resolved.value);
      assert extension.Value() == base;
      if p.authentication.Some? {
        err := ImportAuthentication(p.authentication.value);
        if err.Some? {
          return;
        }
      }
      if p.allowList.Some? {
        ImportPass(AllowListPass(p.allowList.value));
      }
      if p.validateRequest.Some? {
        ImportPass(ValidateRequestPass(p.validateRequest.value));
      }
      err := None;
    }
  }
}
