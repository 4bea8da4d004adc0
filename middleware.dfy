/** Per-operation middleware: the allow-list and validate-request passes. */
module Middlewares {
  import opened Common
  import opened OasDocument
  import opened OperationId

  datatype Allowance = Allowance(enabled: bool)

  datatype ValidateRequest = ValidateRequest(enabled: bool, errorResponseCode: int)

  /** The status a failed request validation answers with (HTTP 400 Bad Request). */
  const StatusBadRequest: int := 400

  /** The middleware of one operation; each part is optional. */
  datatype Operation = Operation(allow: Option<Allowance>, block: Option<Allowance>, validateRequest: Option<ValidateRequest>)

  const EmptyOperation := Operation(None, None, None)

  /** The middleware section: operations keyed by operation key. */
  datatype Middleware = Middleware(operations: map<string, Operation>)

  /** One derivation pass, run for an override that is present. */
  datatype Pass = AllowListPass(enabled: bool) | ValidateRequestPass(enabled: bool)

  /** The allow list applies to every operation; validation only to those with a JSON body. */
  predicate Applies(pass: Pass, op: OasOperation)
  {
    pass.AllowListPass? || HasJsonBody(op)
  }

  /** The middleware of one operation after a pass. */
  function ApplyPass(pass: Pass, o: Operation): (r: Operation)
    // allow and block are never both on once allow is enabled; a block entry is never added
    ensures pass == AllowListPass(true) ==> r.allow == Some(Allowance(true)) && r.block != Some(Allowance(true))
    ensures r.block.Some? <==> o.block.Some?
    ensures pass == AllowListPass(false) ==> r.block == o.block
    // validation is configured with the bad-request status code for both values
    ensures pass.ValidateRequestPass? ==> r.validateRequest == Some(ValidateRequest(pass.enabled, StatusBadRequest))
    // each pass touches only its own parts of the operation
    ensures pass.ValidateRequestPass? ==> r.allow == o.allow && r.block == o.block
    ensures pass.AllowListPass? ==> r.allow == Some(Allowance(pass.enabled)) && r.validateRequest == o.validateRequest
  {
    match pass
    case AllowListPass(enabled) =>
      var block := if enabled && o.block == Some(Allowance(true)) then Some(Allowance(false)) else o.block;
      o.(allow := Some(Allowance(enabled)), block := block)
    case ValidateRequestPass(enabled) =>
      o.(validateRequest := Some(ValidateRequest(enabled, StatusBadRequest)))
  }

  /** Applying a pass to an operation it already went through changes nothing. */
  lemma ApplyPassIdempotent(pass: Pass, o: Operation)
    ensures ApplyPass(pass, ApplyPass(pass, o)) == ApplyPass(pass, o)
  {
  }

  function LookupOperation(ops: map<string, Operation>, key: string): Operation
  {
    if key in ops then ops[key] else EmptyOperation
  }

  function OperationsOf(mw: Option<Middleware>): map<string, Operation>
  {
    if mw.Some? then mw.value.operations else map[]
  }

  /** The keys of the operations among `done` that the pass applies to. */
  function QualifyingKeys(paths: map<(string, HttpMethod), OasOperation>, done: set<(string, HttpMethod)>, pass: Pass): set<string>
  {
    set pm | pm in done && pm in paths && Applies(pass, paths[pm]) :: OperationKey(pm.0, pm.1, paths[pm])
  }

  /** The operations after the pass visited the operations in `done`, in any order. */
  function PassOver(ops: map<string, Operation>, paths: map<(string, HttpMethod), OasOperation>,
                    done: set<(string, HttpMethod)>, pass: Pass): map<string, Operation>
  {
    var touched := QualifyingKeys(paths, done, pass);
    map k | k in ops.Keys + touched :: if k in touched then ApplyPass(pass, LookupOperation(ops, k)) else ops[k]
  }

  /**
   * A whole pass over the document: when no operation qualifies the middleware
   * is left as it was (in particular an absent one stays absent), otherwise
   * every qualifying operation's entry is created or updated.
   */
  function ImportPass(paths: map<(string, HttpMethod), OasOperation>, mw: Option<Middleware>, pass: Pass): (r: Option<Middleware>)
    ensures QualifyingKeys(paths, paths.Keys, pass) == {} ==> r == mw
    ensures r.None? ==> mw.None?
    ensures r.Some? ==> r.value.operations.Keys == OperationsOf(mw).Keys + QualifyingKeys(paths, paths.Keys, pass)
  {
    if QualifyingKeys(paths, paths.Keys, pass) == {} then mw
    else Some(Middleware(PassOver(OperationsOf(mw), paths, paths.Keys, pass)))
  }

  lemma PassOverEmpty(ops: map<string, Operation>, paths: map<(string, HttpMethod), OasOperation>, pass: Pass)
    ensures PassOver(ops, paths, {}, pass) == ops
  {
    assert QualifyingKeys(paths, {}, pass) == {};
  }

  /** Visiting one more operation writes its entry on top of the previous ones, whatever the order. */
  lemma PassOverStep(ops: map<string, Operation>, paths: map<(string, HttpMethod), OasOperation>,
                     done: set<(string, HttpMethod)>, pm: (string, HttpMethod), pass: Pass)
    requires pm in paths
    ensures var before := PassOver(ops, paths, done, pass);
      var key := OperationKey(pm.0, pm.1, paths[pm]);
      PassOver(ops, paths, done + {pm}, pass) ==
        if Applies(pass, paths[pm]) then before[key := ApplyPass(pass, LookupOperation(before, key))] else before
  {
    var before := PassOver(ops, paths, done, pass);
    var key := OperationKey(pm.0, pm.1, paths[pm]);
    if Applies(pass, paths[pm]) {
      assert QualifyingKeys(paths, done + {pm}, pass) == QualifyingKeys(paths, done, pass) + {key};
    } else {
      assert QualifyingKeys(paths, done + {pm}, pass) == QualifyingKeys(paths, done, pass);
    }
  }

  /** Every qualifying operation of the document gets the pass applied to its entry. */
  lemma ImportPassSetsEveryOperation(paths: map<(string, HttpMethod), OasOperation>, mw: Option<Middleware>,
                                     pass: Pass, pm: (string, HttpMethod))
    requires pm in paths && Applies(pass, paths[pm])
    ensures var key := OperationKey(pm.0, pm.1, paths[pm]);
      var r := ImportPass(paths, mw, pass);
      r.Some? && key in r.value.operations &&
      r.value.operations[key] == ApplyPass(pass, LookupOperation(OperationsOf(mw), key))
  {
    assert OperationKey(pm.0, pm.1, paths[pm]) in QualifyingKeys(paths, paths.Keys, pass);
  }

  /** An entry whose key no qualifying operation has is kept exactly, or stays absent. */
  lemma ImportPassKeepsOthers(paths: map<(string, HttpMethod), OasOperation>, mw: Option<Middleware>, pass: Pass, key: string)
    requires forall pm :: pm in paths && Applies(pass, paths[pm]) ==> OperationKey(pm.0, pm.1, paths[pm]) != key
    ensures var ops := OperationsOf(ImportPass(paths, mw, pass));
      (key in ops <==> key in OperationsOf(mw)) && (key in ops ==> ops[key] == OperationsOf(mw)[key])
  {
  }

  /** Without a qualifying operation an absent middleware stays absent, not an empty map. */
  lemma ImportPassNilWhenNothingApplies(paths: map<(string, HttpMethod), OasOperation>, pass: Pass)
    requires forall pm :: pm in paths ==> !Applies(pass, paths[pm])
    ensures ImportPass(paths, None, pass) == None
  {
    assert QualifyingKeys(paths, paths.Keys, pass) == {};
  }

  /** Running the same pass twice gives the same middleware as running it once. */
  lemma ImportPassIdempotent(paths: map<(string, HttpMethod), OasOperation>, mw: Option<Middleware>, pass: Pass)
    ensures ImportPass(paths, ImportPass(paths, mw, pass), pass) == ImportPass(paths, mw, pass)
  {
    var once := ImportPass(paths, mw, pass);
    if QualifyingKeys(paths, paths.Keys, pass) != {} {
      var ops1 := OperationsOf(once);
      var ops2 := PassOver(ops1, paths, paths.Keys, pass);
      assert ops2.Keys == ops1.Keys;
      forall k | k in ops2 ensures ops2[k] == ops1[k] {
        if k in QualifyingKeys(paths, paths.Keys, pass) {
          ApplyPassIdempotent(pass, LookupOperation(OperationsOf(mw), k));
        }
      }
      assert ops2 == ops1;
    }
  }

  /** An allow-list pass and a validate-request pass touch separate parts, so their order does not matter. */
  lemma ApplyPassCommute(allow: bool, validate: bool, o: Operation)
    ensures ApplyPass(AllowListPass(allow), ApplyPass(ValidateRequestPass(validate), o))
         == ApplyPass(ValidateRequestPass(validate), ApplyPass(AllowListPass(allow), o))
  {
  }

  /** One entry after a whole pass: created or updated when its key qualifies, kept otherwise. */
  lemma ImportPassAt(paths: map<(string, HttpMethod), OasOperation>, mw: Option<Middleware>, pass: Pass, k: string)
    ensures var q := QualifyingKeys(paths, paths.Keys, pass);
      var ops := OperationsOf(ImportPass(paths, mw, pass));
      (k in ops <==> k in OperationsOf(mw) || k in q) &&
      LookupOperation(ops, k) == if k in q then ApplyPass(pass, LookupOperation(OperationsOf(mw), k)) else LookupOperation(OperationsOf(mw), k)
  {
  }

  /** Two operation maps with the same keys and the same entries are equal. */
  lemma OperationsExtensional(m1: map<string, Operation>, m2: map<string, Operation>)
    requires forall k :: (k in m1 <==> k in m2) && LookupOperation(m1, k) == LookupOperation(m2, k)
    ensures m1 == m2
  {
    assert m1.Keys == m2.Keys;
    forall k | k in m1 ensures m1[k] == m2[k] {
      assert LookupOperation(m1, k) == LookupOperation(m2, k);
    }
  }

  /** One entry after both passes is the same in either order. */
  lemma ImportPassCommuteAt(paths: map<(string, HttpMethod), OasOperation>, mw: Option<Middleware>, allow: bool, validate: bool, k: string)
    ensures var av := OperationsOf(ImportPass(paths, ImportPass(paths, mw, AllowListPass(allow)), ValidateRequestPass(validate)));
      var va := OperationsOf(ImportPass(paths, ImportPass(paths, mw, ValidateRequestPass(validate)), AllowListPass(allow)));
      (k in av <==> k in va) && LookupOperation(av, k) == LookupOperation(va, k)
  {
    var a, v := AllowListPass(allow), ValidateRequestPass(validate);
    var ma, mv := ImportPass(paths, mw, a), ImportPass(paths, mw, v);
    ImportPassAt(paths, mw, a, k);
    ImportPassAt(paths, mw, v, k);
    ImportPassAt(paths, ma, v, k);
    ImportPassAt(paths, mv, a, k);
    ApplyPassCommute(allow, validate, LookupOperation(OperationsOf(mw), k));
  }

  /** The two passes over a document commute. */
  lemma ImportPassCommute(paths: map<(string, HttpMethod), OasOperation>, mw: Option<Middleware>, allow: bool, validate: bool)
    ensures ImportPass(paths, ImportPass(paths, mw, AllowListPass(allow)), ValidateRequestPass(validate))
         == ImportPass(paths, ImportPass(paths, mw, ValidateRequestPass(validate)), AllowListPass(allow))
  {
    var a, v := AllowListPass(allow), ValidateRequestPass(validate);
    var av := ImportPass(paths, ImportPass(paths, mw, a), v);
    var va := ImportPass(paths, ImportPass(paths, mw, v), a);
    if QualifyingKeys(paths, paths.Keys, a) != {} || QualifyingKeys(paths, paths.Keys, v) != {} {
      assert av.Some? && va.Some?;
      forall k ensures (k in OperationsOf(av) <==> k in OperationsOf(va)) && LookupOperation(OperationsOf(av), k) == LookupOperation(OperationsOf(va), k) {
        ImportPassCommuteAt(paths, mw, allow, validate, k);
      }
      OperationsExtensional(OperationsOf(av), OperationsOf(va));
    }
  }
}
