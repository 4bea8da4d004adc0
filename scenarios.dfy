/** Whole builds of the documents and extensions the test cases use. */
module Scenarios {
  import opened Common
  import opened OasDocument
  import opened OperationId
  import opened ServerUrl
  import opened ConfigParams
  import opened Security
  import opened Middlewares
  import opened Defaults
  import opened Gateway

  /** The /pets document of the tests: GET and POST, optionally with declared ids. */
  function PetsPaths(withOperationId: bool, postJsonBody: bool): map<(string, HttpMethod), OasOperation>
  {
    var body := if postJsonBody then Some({ContentTypeJson}) else None;
    map[("/pets", GET) := OasOperation(if withOperationId then "getPets" else "", None),
        ("/pets", POST) := OasOperation(if withOperationId then "postPets" else "", body)]
  }

  /** The allow list on the /pets document without declared ids writes petsGET and petsPOST. */
  lemma PetsAllowList(enabled: bool)
    ensures ImportPass(PetsPaths(false, false), None, AllowListPass(enabled))
      == Some(Middleware(map["petsGET" := Operation(Some(Allowance(enabled)), None, None),
                             "petsPOST" := Operation(Some(Allowance(enabled)), None, None)]))
  {
    var paths := PetsPaths(false, false);
    var pass := AllowListPass(enabled);
    var get, post := ("/pets", GET), ("/pets", POST);
    PetsFallbackKeys();
    assert paths.Keys == {get, post};
    assert OperationKey(get.0, get.1, paths[get]) == "petsGET";
    assert OperationKey(post.0, post.1, paths[post]) == "petsPOST";
    var q := QualifyingKeys(paths, paths.Keys, pass);
    assert "petsGET" in q && "petsPOST" in q;
    forall k | k in q ensures k == "petsGET" || k == "petsPOST" {
      var pm :| pm in paths.Keys && pm in paths && Applies(pass, paths[pm]) && k == OperationKey(pm.0, pm.1, paths[pm]);
      assert pm == get || pm == post;
    }
    assert q == {"petsGET", "petsPOST"};
    var ops := PassOver(map[], paths, paths.Keys, pass);
    var expected := map["petsGET" := Operation(Some(Allowance(enabled)), None, None),
                        "petsPOST" := Operation(Some(Allowance(enabled)), None, None)];
    assert ops.Keys == expected.Keys;
    assert ops["petsGET"] == expected["petsGET"];
    assert ops["petsPOST"] == expected["petsPOST"];
    assert ops == expected;
  }

  /** Validation on the /pets document with ids writes only postPets, whose body is JSON. */
  lemma PetsValidateRequest(enabled: bool)
    ensures ImportPass(PetsPaths(true, true), None, ValidateRequestPass(enabled))
      == Some(Middleware(map["postPets" := Operation(None, None, Some(ValidateRequest(enabled, StatusBadRequest)))]))
  {
    var paths := PetsPaths(true, true);
    assert paths.Keys == {("/pets", GET), ("/pets", POST)};
    assert !HasJsonBody(paths[("/pets", GET)]);
    assert QualifyingKeys(paths, paths.Keys, ValidateRequestPass(enabled)) == {"postPets"};
    var ops := PassOver(map[], paths, paths.Keys, ValidateRequestPass(enabled));
    var expected := map["postPets" := Operation(None, None, Some(ValidateRequest(enabled, StatusBadRequest)))];
    assert ops.Keys == expected.Keys;
    assert ops["postPets"] == expected["postPets"];
    assert ops == expected;
  }

  const ExampleServer: string := "https://example-org.com/api"

  function PetsDocument(withOperationId: bool, postJsonBody: bool): Document
  {
    Document("OAS API", [ExampleServer], PetsPaths(withOperationId, postJsonBody), [], map[])
  }

  function ExtensionWith(mw: Option<Middleware>): TykExtension
  {
    TykExtension(Server("/", "", None), Upstream(ExampleServer), Info("OAS API", State(true)), mw)
  }

  const MyAuthDocument := Document("OAS API", [ExampleServer], map[], [{"my_auth"}], map["my_auth" := ApiKey(Header, "my-header")])

  /** The header API-key scheme of the authentication test becomes an enabled token with an unnamed header source. */
  lemma MyAuthImport()
    ensures Security.ImportAuthentication(MyAuthDocument, None, true)
      == Ok(Authentication(true, map["my_auth" := Token(true, AuthSources(Some(ImportedSource), None, None))]))
  {
    var security := MyAuthDocument.security;
    var registry := MyAuthDocument.securitySchemes;
    assert RequirementNames(security) == {"my_auth"} by {
      assert security[0] == {"my_auth"};
    }
    assert ImportableNames(registry, {"my_auth"}) == {"my_auth"};
    var tokens := ImportNames(map[], registry, {"my_auth"}, true);
    assert tokens.Keys == {"my_auth"};
    assert tokens == map["my_auth" := Token(true, AuthSources(Some(ImportedSource), None, None))];
  }

  /**
   * An existing extension overridden with listen path, upstream, custom domain
   * and authentication: the overrides replace the server fields, the scheme is
   * imported, and the existing name is kept.
   */
  lemma OverrideExistingWithAuthentication()
    ensures BuildDefaultTykExtension(
        MyAuthDocument,
        TykExtensionConfigParams("/new-listen-api", "https://example.org/api", "new-custom-domain.org", Some(true), None, None),
        Some(TykExtension(Server("/listen-api", "custom-domain.org", None), Upstream(""), Info("New OAS API", State(false)), None)))
      == Ok(Built(TykExtension(
           Server("/new-listen-api", "new-custom-domain.org",
                  Some(Authentication(true, map["my_auth" := Token(true, AuthSources(Some(ImportedSource), None, None))]))),
           Upstream("https://example.org/api"), Info("New OAS API", State(true)), None), None))
  {
    var p := TykExtensionConfigParams("/new-listen-api", "https://example.org/api", "new-custom-domain.org", Some(true), None, None);
    var e := TykExtension(Server("/listen-api", "custom-domain.org", None), Upstream(""), Info("New OAS API", State(false)), None);
    HttpsIsAbsolute(p.upstreamUrl);
    MyAuthImport();
    ExistingOverriddenByParams(MyAuthDocument, e, p);
    BuildImportsAuthentication(MyAuthDocument, p, Some(e));
  }

  /** The /pets document with declared ids: its two operations are keyed getPets and postPets. */
  lemma PetsDeclaredKeys(postJsonBody: bool, pass: Pass)
    ensures QualifyingKeys(PetsPaths(true, postJsonBody), PetsPaths(true, postJsonBody).Keys, pass)
      == (if Applies(pass, OasOperation("getPets", None)) then {"getPets"} else {})
       + (if Applies(pass, PetsPaths(true, postJsonBody)[("/pets", POST)]) then {"postPets"} else {})
  {
    var paths := PetsPaths(true, postJsonBody);
    var get, post := ("/pets", GET), ("/pets", POST);
    assert paths.Keys == {get, post};
    assert OperationKey(get.0, get.1, paths[get]) == "getPets";
    assert OperationKey(post.0, post.1, paths[post]) == "postPets";
    var q := QualifyingKeys(paths, paths.Keys, pass);
    forall k | k in q ensures (k == "getPets" && Applies(pass, paths[get])) || (k == "postPets" && Applies(pass, paths[post])) {
      var pm :| pm in paths.Keys && pm in paths && Applies(pass, paths[pm]) && k == OperationKey(pm.0, pm.1, paths[pm]);
      assert pm == get || pm == post;
    }
  }

  /** Enabling the allow list turns an enabled block entry off and adds no block where none was. */
  lemma EnableAllowListTogglesBlock()
    ensures BuildDefaultTykExtension(PetsDocument(true, false), NoParams.(allowList := Some(true)),
        Some(ExtensionWith(Some(Middleware(map[
          "getPets" := Operation(Some(Allowance(false)), Some(Allowance(true)), None),
          "postPets" := Operation(Some(Allowance(false)), None, None)])))))
      == Ok(Built(ExtensionWith(Some(Middleware(map[
          "getPets" := Operation(Some(Allowance(true)), Some(Allowance(false)), None),
          "postPets" := Operation(Some(Allowance(true)), None, None)]))), None))
  {
    var doc := PetsDocument(true, false);
    var p := NoParams.(allowList := Some(true));
    var ops := map["getPets" := Operation(Some(Allowance(false)), Some(Allowance(true)), None),
                   "postPets" := Operation(Some(Allowance(false)), None, None)];
    var expected := map["getPets" := Operation(Some(Allowance(true)), Some(Allowance(false)), None),
                        "postPets" := Operation(Some(Allowance(true)), None, None)];
    var e := ExtensionWith(Some(Middleware(ops)));
    HttpsIsAbsolute(ExampleServer);
    assert ApplyServerDefaults(doc, p, Some(e), ExampleServer) == e;
    PetsAllowOverExisting();
  }

  lemma PetsAllowOverExisting()
    ensures ImportPass(PetsPaths(true, false),
        Some(Middleware(map["getPets" := Operation(Some(Allowance(false)), Some(Allowance(true)), None),
                            "postPets" := Operation(Some(Allowance(false)), None, None)])), AllowListPass(true))
      == Some(Middleware(map["getPets" := Operation(Some(Allowance(true)), Some(Allowance(false)), None),
                             "postPets" := Operation(Some(Allowance(true)), None, None)]))
  {
    var ops := map["getPets" := Operation(Some(Allowance(false)), Some(Allowance(true)), None),
                   "postPets" := Operation(Some(Allowance(false)), None, None)];
    var expected := map["getPets" := Operation(Some(Allowance(true)), Some(Allowance(false)), None),
                        "postPets" := Operation(Some(Allowance(true)), None, None)];
    var paths := PetsPaths(true, false);
    PetsDeclaredKeys(false, AllowListPass(true));
    var after := PassOver(ops, paths, paths.Keys, AllowListPass(true));
    assert after.Keys == expected.Keys;
    assert after == expected;
  }

  /** An existing validation entry is overwritten with the requested flag and the 400 status. */
  lemma OverrideExistingValidateRequest()
    ensures BuildDefaultTykExtension(PetsDocument(true, true), NoParams.(validateRequest := Some(true)),
        Some(ExtensionWith(Some(Middleware(map["postPets" := Operation(None, None, Some(ValidateRequest(false, 0)))])))))
      == Ok(Built(ExtensionWith(Some(Middleware(map[
          "postPets" := Operation(None, None, Some(ValidateRequest(true, StatusBadRequest)))]))), None))
  {
    var doc := PetsDocument(true, true);
    var p := NoParams.(validateRequest := Some(true));
    var ops := map["postPets" := Operation(None, None, Some(ValidateRequest(false, 0)))];
    var expected := map["postPets" := Operation(None, None, Some(ValidateRequest(true, StatusBadRequest)))];
    var e := ExtensionWith(Some(Middleware(ops)));
    HttpsIsAbsolute(ExampleServer);
    assert ApplyServerDefaults(doc, p, Some(e), ExampleServer) == e;
    PetsValidateOverExisting();
  }

  lemma PetsValidateOverExisting()
    ensures ImportPass(PetsPaths(true, true),
        Some(Middleware(map["postPets" := Operation(None, None, Some(ValidateRequest(false, 0)))])), ValidateRequestPass(true))
      == Some(Middleware(map["postPets" := Operation(None, None, Some(ValidateRequest(true, StatusBadRequest)))]))
  {
    var ops := map["postPets" := Operation(None, None, Some(ValidateRequest(false, 0)))];
    var expected := map["postPets" := Operation(None, None, Some(ValidateRequest(true, StatusBadRequest)))];
    var paths := PetsPaths(true, true);
    PetsDeclaredKeys(true, ValidateRequestPass(true));
    var after := PassOver(ops, paths, paths.Keys, ValidateRequestPass(true));
    assert after.Keys == expected.Keys;
    assert after == expected;
  }

  /** Validation requested on a document without JSON request bodies leaves the middleware absent. */
  lemma ValidateRequestWithoutJsonBodies(enabled: bool)
    ensures BuildDefaultTykExtension(PetsDocument(true, false), NoParams.(validateRequest := Some(enabled)), None)
      == Ok(Built(ExtensionWith(None), None))
  {
    HttpsIsAbsolute(ExampleServer);
    var paths := PetsPaths(true, false);
    forall pm | pm in paths ensures !Applies(ValidateRequestPass(enabled), paths[pm]) {
      assert pm == ("/pets", GET) || pm == ("/pets", POST);
    }
    ImportPassNilWhenNothingApplies(paths, ValidateRequestPass(enabled));
  }

  /**
   * A client of the classes: an existing extension is attached, built without
   * overrides, and read back with its listen path and name kept.
   */
  method KeepExistingExtension() returns (kept: TykExtension)
    ensures kept == TykExtension(Server("/new-listen-path", "", None), Upstream(ExampleServer),
                                 Info("New OAS API", State(true)), None)
  {
    var doc := Document("OAS API", [ExampleServer], map[], [], map[]);
    var before := TykExtension(Server("/new-listen-path", "", None), Upstream(""), Info("New OAS API", State(false)), None);
    HttpsIsAbsolute(ExampleServer);
    assert BuildDefaultTykExtension(doc, NoParams, Some(before))
        == Ok(Built(TykExtension(Server("/new-listen-path", "", None), Upstream(ExampleServer),
                                 Info("New OAS API", State(true)), None), None));
    var oas := new OAS(doc);
    var existing := new XTykAPIGateway();
    existing.info := Info("New OAS API", State(false));
    existing.server := Server("/new-listen-path", "", None);
    oas.SetTykExtension(existing);
    assert existing.Value() == before;
    var err := oas.BuildDefaultTykExtension(NoParams);
    var ext := oas.GetTykExtension();
    kept := ext.Value();
  }

  /** A client of the classes: a failing build leaves the document without an extension. */
  method InvalidUpstreamLeavesNoExtension() returns (err: Option<Error>, attached: bool)
    ensures err == Some(InvalidUpstreamURL) && !attached
  {
    var oas := new OAS(Document("OAS API", [ExampleServer], map[], [], map[]));
    TestedRelativeUrls();
    err := oas.BuildDefaultTykExtension(NoParams.(upstreamUrl := "invalid-url"));
    var ext := oas.GetTykExtension();
    attached := ext != null;
  }

  /**
   * A client of the classes: an invalid upstream override over an attached
   * extension reports the error and leaves that extension attached and as it was.
   */
  method InvalidUpstreamKeepsExistingExtension() returns (err: Option<Error>, sameObject: bool, kept: TykExtension)
    ensures err == Some(InvalidUpstreamURL) && sameObject
    ensures kept == TykExtension(Server("/listen-api", "", None), Upstream(""), Info("New OAS API", State(false)), None)
  {
    var oas := new OAS(Document("OAS API", [ExampleServer], map[], [], map[]));
    var existing := new XTykAPIGateway();
    existing.info := Info("New OAS API", State(false));
    existing.server := Server("/listen-api", "", None);
    oas.SetTykExtension(existing);
    TestedRelativeUrls();
    err := oas.BuildDefaultTykExtension(NoParams.(listenPath := "/new-listen-api", upstreamUrl := "invalid-url"));
    var ext := oas.GetTykExtension();
    sameObject := ext == existing;
    kept := existing.Value();
  }
}
