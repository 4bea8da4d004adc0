/** Option and Result wrappers shared by every module, and the sentinel errors of the engine. */
module Common {

  /** A Go pointer or tri-state boolean: absent (nil) or present. */
  datatype Option<+T> = None | Some(value: T)

  /** The four sentinel errors the defaulting engine returns. */
  datatype Error =
    | InvalidUpstreamURL   // the caller's upstream override is not an absolute URL
    | InvalidServerURL     // the document's first server URL is not absolute
    | EmptyServersObject   // no override and the document declares no servers
    | EmptySecurityObject  // authentication import on a document without security requirements

  datatype Result<+T> = Ok(value: T) | Err(error: Error)
}
