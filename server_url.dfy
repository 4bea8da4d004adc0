/** Resolution and validation of the upstream URL. */
module ServerUrl {
  import opened Common

  predicate IsLetter(c: char)
  {
    'a' <= c <= 'z' || 'A' <= c <= 'Z'
  }

  predicate IsSchemeChar(c: char)
  {
    IsLetter(c) || '0' <= c <= '9' || c == '+' || c == '-' || c == '.'
  }

  /** The rest of a scheme: scheme characters up to a terminating ':'. */
  predicate SchemeTail(s: string)
    decreases |s|
  {
    |s| > 0 && (s[0] == ':' || (IsSchemeChar(s[0]) && SchemeTail(s[1..])))
  }

  /**
   * A URL is absolute when it starts with a scheme: a letter, then scheme
   * characters, then ':' (a scan from the left, as a URL parser reads it).
   */
  predicate IsAbsoluteUrl(s: string)
    ensures IsAbsoluteUrl(s) ==> |s| >= 2 && IsLetter(s[0])
    ensures |s| > 0 && (s[0] == '/' || s[0] == ':') ==> !IsAbsoluteUrl(s)
  {
    |s| > 0 && IsLetter(s[0]) && SchemeTail(s[1..])
  }

  /** The same condition stated by the position of the scheme's ':'. */
  ghost predicate HasSchemeAt(s: string, i: int)
  {
    1 <= i < |s| && s[i] == ':' && IsLetter(s[0])
    && forall j :: 1 <= j < i ==> IsSchemeChar(s[j])
  }

  lemma {:induction false} SchemeTailAt(s: string)
    ensures SchemeTail(s) <==> exists i :: 0 <= i < |s| && s[i] == ':' && forall j :: 0 <= j < i ==> IsSchemeChar(s[j])
    decreases |s|
  {
    if |s| > 0 && s[0] != ':' {
      SchemeTailAt(s[1..]);
      if SchemeTail(s) {
        var i :| 0 <= i < |s[1..]| && s[1..][i] == ':' && forall j :: 0 <= j < i ==> IsSchemeChar(s[1..][j]);
        assert s[i + 1] == ':';
        assert forall j :: 0 <= j < i + 1 ==> IsSchemeChar(s[j]) by {
          forall j | 0 <= j < i + 1 ensures IsSchemeChar(s[j]) {
            if j > 0 { assert s[j] == s[1..][j - 1]; }
          }
        }
      }
      if exists i :: 0 <= i < |s| && s[i] == ':' && forall j :: 0 <= j < i ==> IsSchemeChar(s[j]) {
        var i :| 0 <= i < |s| && s[i] == ':' && forall j :: 0 <= j < i ==> IsSchemeChar(s[j]);
        assert i > 0;
        assert s[1..][i - 1] == ':';
        assert forall j :: 0 <= j < i - 1 ==> IsSchemeChar(s[1..][j]) by {
          forall j | 0 <= j < i - 1 ensures IsSchemeChar(s[1..][j]) {
            assert s[1..][j] == s[j + 1];
          }
        }
      }
    }
  }

  /** The scan agrees with the positional definition of a scheme. */
  lemma IsAbsoluteUrlMeansScheme(s: string)
    ensures IsAbsoluteUrl(s) <==> exists i :: HasSchemeAt(s, i)
  {
    if |s| > 0 {
      SchemeTailAt(s[1..]);
      if IsAbsoluteUrl(s) {
        var i :| 0 <= i < |s[1..]| && s[1..][i] == ':' && forall j :: 0 <= j < i ==> IsSchemeChar(s[1..][j]);
        assert HasSchemeAt(s, i + 1) by {
          forall j | 1 <= j < i + 1 ensures IsSchemeChar(s[j]) { assert s[j] == s[1..][j - 1]; }
        }
      }
      if exists i :: HasSchemeAt(s, i) {
        var i :| HasSchemeAt(s, i);
        assert s[1..][i - 1] == ':';
        forall j | 0 <= j < i - 1 ensures IsSchemeChar(s[1..][j]) { assert s[1..][j] == s[j + 1]; }
      }
    }
  }

  /** A string without a ':' has no scheme, so it is not absolute. */
  lemma NoColonNotAbsolute(s: string)
    requires ':' !in s
    ensures !IsAbsoluteUrl(s)
  {
    forall i | 0 <= i < |s| ensures s[i] != ':' { assert s[i] in s; }
    IsAbsoluteUrlMeansScheme(s);
  }

  /** A URL that starts with "https:" is absolute. */
  lemma HttpsIsAbsolute(s: string)
    requires |s| >= 6 && s[..6] == "https:"
    ensures IsAbsoluteUrl(s)
  {
    IsAbsoluteUrlMeansScheme(s);
    assert s[5] == s[..6][5] == ':';
    assert HasSchemeAt(s, 5) by {
      forall j | 1 <= j < 5 ensures IsSchemeChar(s[j]) { assert s[j] == s[..6][j]; }
    }
  }

  /** The URLs the tests reject: "invalid-url" has no scheme, "/listen-api" is a bare path. */
  lemma TestedRelativeUrls()
    ensures !IsAbsoluteUrl("invalid-url")
    ensures !IsAbsoluteUrl("/listen-api")
  {
    NoColonNotAbsolute("invalid-url");
  }

  /** The https URLs the tests use as servers and overrides are absolute. */
  lemma TestedAbsoluteUrls()
    ensures IsAbsoluteUrl("https://example-org.com/api")
    ensures IsAbsoluteUrl("https://example.org/api")
    ensures IsAbsoluteUrl("https://upstream.org")
  {
    HttpsIsAbsolute("https://example-org.com/api");
    HttpsIsAbsolute("https://example.org/api");
    HttpsIsAbsolute("https://upstream.org");
  }

  /**
   * The upstream URL of a build: the caller's override when non-empty (it must
   * be absolute), otherwise the first server of the document (which must exist
   * and be absolute).
   */
  function ResolveUpstream(servers: seq<string>, upstreamOverride: string): (r: Result<string>)
    ensures r.Ok? ==> IsAbsoluteUrl(r.value)
  {
    if upstreamOverride != "" then
      if IsAbsoluteUrl(upstreamOverride) then Ok(upstreamOverride) else Err(InvalidUpstreamURL)
    else if |servers| == 0 then Err(EmptyServersObject)
    else if IsAbsoluteUrl(servers[0]) then Ok(servers[0])
    else Err(InvalidServerURL)
  }

  /** Resolution succeeds exactly when the chosen candidate is absolute, and yields it. */
  lemma ResolveUpstreamOk(servers: seq<string>, upstreamOverride: string)
    ensures ResolveUpstream(servers, upstreamOverride).Ok? <==>
      (if upstreamOverride != "" then IsAbsoluteUrl(upstreamOverride)
       else |servers| > 0 && IsAbsoluteUrl(servers[0]))
    ensures ResolveUpstream(servers, upstreamOverride).Ok? ==>
      ResolveUpstream(servers, upstreamOverride).value ==
        (if upstreamOverride != "" then upstreamOverride else servers[0])
  {
  }

  /** Each failure carries the sentinel of the input that caused it. */
  lemma ResolveUpstreamErrors(servers: seq<string>, upstreamOverride: string)
    ensures upstreamOverride != "" && !IsAbsoluteUrl(upstreamOverride) ==>
      ResolveUpstream(servers, upstreamOverride) == Err(InvalidUpstreamURL)
    ensures upstreamOverride == "" && |servers| == 0 ==>
      ResolveUpstream(servers, upstreamOverride) == Err(EmptyServersObject)
    ensures upstreamOverride == "" && |servers| > 0 && !IsAbsoluteUrl(servers[0]) ==>
      ResolveUpstream(servers, upstreamOverride) == Err(InvalidServerURL)
    ensures upstreamOverride != "" ==>
      ResolveUpstream(servers, upstreamOverride).Err? ==> ResolveUpstream(servers, upstreamOverride).error == InvalidUpstreamURL
  {
  }
}
