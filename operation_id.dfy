/** The stable key under which per-operation middleware is stored. */
module OperationId {
  import opened OasDocument

  /** A path as OpenAPI requires it: starting with a separator. */
  predicate IsOasPath(path: string)
  {
    |path| > 0 && path[0] == '/'
  }

  function TrimLeadingSlash(path: string): string
  {
    if |path| > 0 && path[0] == '/' then path[1..] else path
  }

  /** The key derived from path and method when the operation declares no operationId. */
  function FallbackKey(path: string, verb: HttpMethod): (k: string)
    ensures |k| >= |MethodName(verb)|
    ensures k[|k| - |MethodName(verb)|..] == MethodName(verb)
  {
    TrimLeadingSlash(path) + MethodName(verb)
  }

  /** The declared operationId when there is one, otherwise the fallback key. */
  function OperationKey(path: string, verb: HttpMethod, op: OasOperation): (k: string)
    ensures k != ""
    ensures op.operationId == "" ==> k == FallbackKey(path, verb)
  {
    if op.operationId != "" then op.operationId else FallbackKey(path, verb)
  }

  /** The two keys the tests expect for the undeclared operations of path /pets. */
  lemma PetsFallbackKeys()
    ensures FallbackKey("/pets", GET) == "petsGET"
    ensures FallbackKey("/pets", POST) == "petsPOST"
  {
  }

  /** A declared operationId is used verbatim, whatever the path and verb. */
  lemma DeclaredIdTakesPrecedence(path: string, verb: HttpMethod, op: OasOperation)
    requires op.operationId != ""
    ensures OperationKey(path, verb, op) == op.operationId
  {
  }

  /** No verb name is a proper suffix of another. */
  lemma MethodNamesSuffixFree(m1: HttpMethod, m2: HttpMethod)
    requires |MethodName(m1)| <= |MethodName(m2)|
    requires MethodName(m2)[|MethodName(m2)| - |MethodName(m1)|..] == MethodName(m1)
    ensures m1 == m2
  {
  }

  /** Distinct (path, verb) pairs never share a fallback key. */
  lemma FallbackKeyInjective(p1: string, m1: HttpMethod, p2: string, m2: HttpMethod)
    requires IsOasPath(p1) && IsOasPath(p2)
    requires FallbackKey(p1, m1) == FallbackKey(p2, m2)
    ensures p1 == p2 && m1 == m2
  {
    var k := FallbackKey(p1, m1);
    var n1, n2 := MethodName(m1), MethodName(m2);
    if |n1| <= |n2| {
      assert k[|k| - |n2|..][|n2| - |n1|..] == k[|k| - |n1|..];
      MethodNamesSuffixFree(m1, m2);
    } else {
      assert k[|k| - |n1|..][|n1| - |n2|..] == k[|k| - |n2|..];
      MethodNamesSuffixFree(m2, m1);
    }
    assert p1[1..] == k[..|k| - |n1|] == p2[1..];
    assert p1 == [p1[0]] + p1[1..] && p2 == [p2[0]] + p2[1..];
  }

  /**
   * Two operations of a document that declare no operationId get the same key
   * only when they are the same (path, verb) pair.
   */
  lemma UndeclaredKeysUnique(p1: string, m1: HttpMethod, op1: OasOperation,
                             p2: string, m2: HttpMethod, op2: OasOperation)
    requires IsOasPath(p1) && IsOasPath(p2)
    requires op1.operationId == "" && op2.operationId == ""
    requires OperationKey(p1, m1, op1) == OperationKey(p2, m2, op2)
    ensures (p1, m1) == (p2, m2)
  {
    FallbackKeyInjective(p1, m1, p2, m2);
  }
}
