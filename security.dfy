/** Import of the document's security schemes into the extension's authentication. */
module Security {
  import opened Common
  import opened OasDocument

  /** A credential location of a token: enabled, with an optional credential name ("" = none). */
  datatype AuthSource = AuthSource(enabled: bool, name: string)

  const ImportedSource := AuthSource(true, "")

  /** The three optional credential locations of a token. */
  datatype AuthSources = AuthSources(header: Option<AuthSource>, query: Option<AuthSource>, cookie: Option<AuthSource>)
  {
    function Slot(kind: SourceKind): Option<AuthSource>
    {
      match kind
      case Header => header
      case Query => query
      case Cookie => cookie
    }

    /** Marks the given location as an enabled source with no name, keeping the others. */
    function Import(kind: SourceKind): (r: AuthSources)
      ensures r.Slot(kind) == Some(ImportedSource)
      ensures forall other :: other != kind ==> r.Slot(other) == Slot(other)
    {
      match kind
      case Header => this.(header := Some(ImportedSource))
      case Query => this.(query := Some(ImportedSource))
      case Cookie => this.(cookie := Some(ImportedSource))
    }
  }

  const NoAuthSources := AuthSources(None, None, None)

  datatype Token = Token(enabled: bool, authSources: AuthSources)

  const EmptyToken := Token(false, NoAuthSources)

  /** The authentication section: enabled flag and tokens keyed by scheme name. */
  datatype Authentication = Authentication(enabled: bool, securitySchemes: map<string, Token>)

  /** API-key schemes and HTTP bearer schemes with JWT format are imported; others are ignored. */
  predicate Supported(scheme: SecurityScheme)
    ensures scheme.ApiKey? ==> Supported(scheme)
    ensures scheme.OtherScheme? ==> !Supported(scheme)
    ensures scheme.Http? && scheme.scheme != SchemeBearer ==> !Supported(scheme)
    ensures scheme.Http? && scheme.bearerFormat != BearerFormatJwt ==> !Supported(scheme)
  {
    scheme.ApiKey? || (scheme.Http? && scheme.scheme == SchemeBearer && scheme.bearerFormat == BearerFormatJwt)
  }

  /** The location a supported scheme carries its credential in (a JWT bearer token: the header). */
  function SourceOf(scheme: SecurityScheme): (k: SourceKind)
    requires Supported(scheme)
    ensures scheme.ApiKey? ==> k == scheme.location
    ensures scheme.Http? ==> k == Header
  {
    if scheme.ApiKey? then scheme.location else Header
  }

  function LookupToken(ss: map<string, Token>, name: string): Token
  {
    if name in ss then ss[name] else EmptyToken
  }

  /** A token after importing a supported scheme into it. */
  function ImportToken(t: Token, scheme: SecurityScheme, enable: bool): (r: Token)
    requires Supported(scheme)
    ensures r.enabled == enable
    ensures r.authSources.Slot(SourceOf(scheme)) == Some(ImportedSource)
    ensures forall kind :: kind != SourceOf(scheme) ==> r.authSources.Slot(kind) == t.authSources.Slot(kind)
  {
    Token(enable, t.authSources.Import(SourceOf(scheme)))
  }

  /** Importing the same scheme twice is the same as importing it once. */
  lemma ImportTokenIdempotent(t: Token, scheme: SecurityScheme, enable: bool)
    requires Supported(scheme)
    ensures ImportToken(ImportToken(t, scheme, enable), scheme, enable) == ImportToken(t, scheme, enable)
  {
    var once := ImportToken(t, scheme, enable);
    var twice := ImportToken(once, scheme, enable);
    assert twice.authSources.Slot(Header) == once.authSources.Slot(Header);
    assert twice.authSources.Slot(Query) == once.authSources.Slot(Query);
    assert twice.authSources.Slot(Cookie) == once.authSources.Slot(Cookie);
  }

  /**
   * SecuritySchemes.Import: a supported scheme updates (or creates) the token of
   * that name, adding only its own source; every other name is untouched.
   */
  function ImportScheme(ss: map<string, Token>, name: string, scheme: SecurityScheme, enable: bool): (r: map<string, Token>)
    ensures !Supported(scheme) ==> r == ss
    ensures Supported(scheme) ==> name in r && r[name] == ImportToken(LookupToken(ss, name), scheme, enable)
    ensures r.Keys == if Supported(scheme) then ss.Keys + {name} else ss.Keys
    ensures forall n :: n in ss && n != name ==> r[n] == ss[n]
  {
    if Supported(scheme) then ss[name := ImportToken(LookupToken(ss, name), scheme, enable)] else ss
  }

  /** The names of a requirement set that resolve to a supported scheme of the registry. */
  function ImportableNames(registry: map<string, SecurityScheme>, names: set<string>): set<string>
  {
    set n | n in names && n in registry && Supported(registry[n])
  }

  /** The schemes after importing every name of `names`, in any order. */
  function ImportNames(ss: map<string, Token>, registry: map<string, SecurityScheme>, names: set<string>, enable: bool): (r: map<string, Token>)
    ensures r.Keys == ss.Keys + ImportableNames(registry, names)
    ensures forall n :: n in ss && n !in ImportableNames(registry, names) ==> r[n] == ss[n]
    ensures forall n :: n in ImportableNames(registry, names) ==>
      r[n].enabled == enable && r[n].authSources.Slot(SourceOf(registry[n])) == Some(ImportedSource)
  {
    var imported := ImportableNames(registry, names);
    map n | n in ss.Keys + imported ::
      if n in imported then ImportToken(LookupToken(ss, n), registry[n], enable) else ss[n]
  }

  /** Importing one more name extends the import of the names before it, whatever the order. */
  lemma ImportNamesStep(ss: map<string, Token>, registry: map<string, SecurityScheme>, names: set<string>, n: string, enable: bool)
    ensures n in registry ==>
      ImportNames(ss, registry, names + {n}, enable) == ImportScheme(ImportNames(ss, registry, names, enable), n, registry[n], enable)
    ensures n !in registry ==>
      ImportNames(ss, registry, names + {n}, enable) == ImportNames(ss, registry, names, enable)
  {
    var before := ImportNames(ss, registry, names, enable);
    var after := ImportNames(ss, registry, names + {n}, enable);
    if n in registry && Supported(registry[n]) {
      var stepped := ImportScheme(before, n, registry[n], enable);
      assert after.Keys == stepped.Keys;
      forall k | k in after ensures after[k] == stepped[k] {
        if k == n && n in ImportableNames(registry, names) {
          ImportTokenIdempotent(LookupToken(ss, n), registry[n], enable);
        }
      }
    } else {
      assert ImportableNames(registry, names + {n}) == ImportableNames(registry, names);
    }
  }

  /** Importing no names changes nothing. */
  lemma ImportNamesEmpty(ss: map<string, Token>, registry: map<string, SecurityScheme>, enable: bool)
    ensures ImportNames(ss, registry, {}, enable) == ss
  {
    assert ImportableNames(registry, {}) == {};
  }

  /** Every scheme name listed by some security requirement. */
  function RequirementNames(security: seq<set<string>>): set<string>
  {
    set i, n | 0 <= i < |security| && n in security[i] :: n
  }

  lemma RequirementNamesPrefix(security: seq<set<string>>, i: nat)
    requires i < |security|
    ensures RequirementNames(security[..i + 1]) == RequirementNames(security[..i]) + security[i]
  {
    var pre := security[..i];
    var next := security[..i + 1];
    forall n | n in RequirementNames(next) ensures n in RequirementNames(pre) + security[i] {
      var j :| 0 <= j < |next| && n in next[j];
      if j < i { assert pre[j] == next[j]; }
    }
    forall n | n in RequirementNames(pre) + security[i] ensures n in RequirementNames(next) {
      if n in security[i] {
        assert next[i] == security[i];
      } else {
        var j :| 0 <= j < |pre| && n in pre[j];
        assert next[j] == pre[j];
      }
    }
  }

  function SchemesOf(auth: Option<Authentication>): map<string, Token>
  {
    if auth.Some? then auth.value.securitySchemes else map[]
  }

  /**
   * importAuthentication: fails on a document without security requirements;
   * otherwise sets the enabled flag and imports every scheme the requirements name.
   */
  function ImportAuthentication(doc: Document, auth: Option<Authentication>, enable: bool): (r: Result<Authentication>)
    ensures r.Err? <==> |doc.security| == 0
    ensures r.Err? ==> r.error == EmptySecurityObject
    ensures r.Ok? ==> r.value.enabled == enable
  {
    if |doc.security| == 0 then Err(EmptySecurityObject)
    else Ok(Authentication(enable, ImportNames(SchemesOf(auth), doc.securitySchemes, RequirementNames(doc.security), enable)))
  }

  /**
   * Every listed scheme that resolves to a supported type gets an enabled-as-requested
   * token carrying an unnamed enabled source at the scheme's location.
   */
  lemma ImportAuthenticationImportsListed(doc: Document, auth: Option<Authentication>, enable: bool, n: string)
    requires |doc.security| > 0
    requires n in RequirementNames(doc.security) && n in doc.securitySchemes && Supported(doc.securitySchemes[n])
    ensures var ss := ImportAuthentication(doc, auth, enable).value.securitySchemes;
      n in ss && ss[n].enabled == enable && ss[n].authSources.Slot(SourceOf(doc.securitySchemes[n])) == Some(ImportedSource)
    ensures var ss := ImportAuthentication(doc, auth, enable).value.securitySchemes;
      n in ss && ss[n] == ImportToken(LookupToken(SchemesOf(auth), n), doc.securitySchemes[n], enable)
    ensures var ss := ImportAuthentication(doc, auth, enable).value.securitySchemes;
      n !in SchemesOf(auth) ==>
        forall kind :: kind != SourceOf(doc.securitySchemes[n]) ==> ss[n].authSources.Slot(kind) == None
  {
    assert n in ImportableNames(doc.securitySchemes, RequirementNames(doc.security));
  }

  /**
   * The import is additive: no token is removed, and every source a token had is
   * still there, unchanged unless it is the slot a scheme of that name re-imported.
   */
  lemma ImportAuthenticationAdditive(doc: Document, auth: Option<Authentication>, enable: bool, n: string, kind: SourceKind)
    requires |doc.security| > 0
    requires n in SchemesOf(auth)
    ensures var ss := ImportAuthentication(doc, auth, enable).value.securitySchemes;
      n in ss &&
      (SchemesOf(auth)[n].authSources.Slot(kind).Some? ==> ss[n].authSources.Slot(kind).Some?) &&
      (n !in ImportableNames(doc.securitySchemes, RequirementNames(doc.security)) ==> ss[n] == SchemesOf(auth)[n]) &&
      ((n in ImportableNames(doc.securitySchemes, RequirementNames(doc.security)) &&
        kind != SourceOf(doc.securitySchemes[n])) ==>
         ss[n].authSources.Slot(kind) == SchemesOf(auth)[n].authSources.Slot(kind))
  {
  }

  /** Names nobody lists, or that do not resolve to a supported scheme, are not added. */
  lemma ImportAuthenticationAddsOnlyListed(doc: Document, auth: Option<Authentication>, enable: bool, n: string)
    requires |doc.security| > 0
    requires n !in SchemesOf(auth)
    requires n !in RequirementNames(doc.security) || n !in doc.securitySchemes || !Supported(doc.securitySchemes[n])
    ensures n !in ImportAuthentication(doc, auth, enable).value.securitySchemes
  {
  }

  /** Importing the same names a second time changes nothing. */
  lemma ImportNamesIdempotent(ss: map<string, Token>, registry: map<string, SecurityScheme>, names: set<string>, enable: bool)
    ensures var once := ImportNames(ss, registry, names, enable);
      ImportNames(once, registry, names, enable) == once
  {
    var once := ImportNames(ss, registry, names, enable);
    var twice := ImportNames(once, registry, names, enable);
    assert twice.Keys == once.Keys;
    forall n | n in twice ensures twice[n] == once[n] {
      if n in ImportableNames(registry, names) {
        ImportTokenIdempotent(LookupToken(ss, n), registry[n], enable);
      }
    }
  }

  /** Re-running importAuthentication on its own result gives that result again. */
  lemma ImportAuthenticationIdempotent(doc: Document, auth: Option<Authentication>, enable: bool)
    requires |doc.security| > 0
    ensures var once := ImportAuthentication(doc, auth, enable).value;
      ImportAuthentication(doc, Some(once), enable) == Ok(once)
  {
    ImportNamesIdempotent(SchemesOf(auth), doc.securitySchemes, RequirementNames(doc.security), enable);
  }

  /** SecuritySchemes.Import of test 1173-1209: a header import keeps the named cookie source. */
  lemma ImportHeaderKeepsCookie()
    ensures ImportScheme(
        map["my_auth_token" := Token(false, AuthSources(None, None, Some(AuthSource(true, "my-auth-token-cookie"))))],
        "my_auth_token", ApiKey(Header, "my-auth-token-header"), true)
      == map["my_auth_token" := Token(true, AuthSources(Some(ImportedSource), None, Some(AuthSource(true, "my-auth-token-cookie"))))]
  {
  }
}
