/** The parts of a parsed OpenAPI document that the defaulting engine reads. */
module OasDocument {
  import opened Common

  /** The HTTP methods an OpenAPI path item may declare an operation for. */
  datatype HttpMethod = GET | PUT | POST | PATCH | DELETE | HEAD | OPTIONS | TRACE | CONNECT

  function MethodName(m: HttpMethod): string
  {
    match m
    case GET => "GET"
    case PUT => "PUT"
    case POST => "POST"
    case PATCH => "PATCH"
    case DELETE => "DELETE"
    case HEAD => "HEAD"
    case OPTIONS => "OPTIONS"
    case TRACE => "TRACE"
    case CONNECT => "CONNECT"
  }

  const ContentTypeJson: string := "application/json"

  /**
   * An operation of the document: its declared operationId ("" when none is
   * declared) and the content types of its request body (None when it has no body).
   */
  datatype OasOperation = OasOperation(operationId: string, requestBody: Option<set<string>>)

  /** True when the request body declares an application/json content entry. */
  predicate HasJsonBody(op: OasOperation)
  {
    op.requestBody.Some? && ContentTypeJson in op.requestBody.value
  }

  /** Where an API-key credential is carried. */
  datatype SourceKind = Header | Query | Cookie

  const SchemeBearer: string := "bearer"
  const BearerFormatJwt: string := "JWT"

  /** A security scheme of the document's components, reduced to its type. */
  datatype SecurityScheme =
    | ApiKey(location: SourceKind, name: string)
    | Http(scheme: string, bearerFormat: string)
    | OtherScheme(schemeType: string)

  /**
   * The document: title, server URLs, operations keyed by (path, method),
   * security requirements (each the set of scheme names it lists; scopes are
   * not modelled) and the security-scheme registry keyed by scheme name.
   */
  datatype Document = Document(
    title: string,
    servers: seq<string>,
    paths: map<(string, HttpMethod), OasOperation>,
    security: seq<set<string>>,
    securitySchemes: map<string, SecurityScheme>)
}
