/**
 * Which requests the idempotency middleware protects: the pure part of
 * `idempotencyMiddleware` that looks only at the HTTP method and the path.
 */
module Eligibility {
  import opened Strings

  /** The methods the middleware treats as mutating, compared exactly as `Array.prototype.includes` does. */
  const MutatingMethods: seq<string> := ["POST", "PUT", "PATCH"]

  /** The path fragments of the withdraw and deposit routes. */
  const Withdraw: string := "/sacar"
  const Deposit: string := "/depositar"

  /** The route prefixes of the unused `needsIdempotency` test. */
  const ClientPrefixes: seq<string> := ["/clientes", "/clients"]

  /** `isPostPutPatch`. */
  predicate IsMutatingMethod(verb: string)
  {
    verb in MutatingMethods
  }

  /** `pathRequiresIdempotency`: the path contains `/sacar` or `/depositar` anywhere. */
  predicate PathRequiresIdempotency(path: string)
  {
    Contains(path, Withdraw) || Contains(path, Deposit)
  }

  /** The condition under which the middleware does anything at all. */
  predicate IsProtected(verb: string, path: string)
  {
    IsMutatingMethod(verb) && PathRequiresIdempotency(path)
  }

  /**
   * `needsIdempotency`: a mutating method on a path under one of the client
   * prefixes. The middleware computes it and never reads it again.
   */
  predicate NeedsIdempotency(verb: string, path: string)
  {
    (exists i :: 0 <= i < |ClientPrefixes| && StartsWith(path, ClientPrefixes[i]))
      && IsMutatingMethod(verb)
  }

  /** Protection stated without the recursive search: an occurrence of a protected fragment. */
  lemma IsProtectedIff(verb: string, path: string)
    ensures IsProtected(verb, path) <==>
      (verb == "POST" || verb == "PUT" || verb == "PATCH") &&
      ((exists i :: OccursAt(path, Withdraw, i)) || (exists i :: OccursAt(path, Deposit, i)))
  {
    ContainsIffOccurs(path, Withdraw);
    ContainsIffOccurs(path, Deposit);
  }

  /** Creating a client: a POST under `/clientes` that neither fragment matches. */
  lemma CreateClientRouteUnprotected()
    ensures NeedsIdempotency("POST", "/clientes") && !IsProtected("POST", "/clientes")
  {
    var create := "/clientes";
    assert StartsWith(create, ClientPrefixes[0]);
    forall i | OccursAt(create, Withdraw, i) ensures i == 0 {
      assert create[i..i + |Withdraw|][0] == '/';
    }
    assert create[0..|Withdraw|][1] == 'c';
    IsProtectedIff("POST", create);
  }

  /** A withdrawal route outside the client prefixes, for any account id. */
  lemma ForeignWithdrawRouteProtected(id: string)
    ensures IsProtected("POST", "/contas/" + id + "/sacar")
    ensures !NeedsIdempotency("POST", "/contas/" + id + "/sacar")
  {
    var withdraw := "/contas/" + id + "/sacar";
    assert Contains(withdraw, Withdraw) by {
      assert withdraw[8 + |id|..8 + |id| + |Withdraw|] == Withdraw;
      assert OccursAt(withdraw, Withdraw, 8 + |id|);
      ContainsIffOccurs(withdraw, Withdraw);
    }
    forall i | 0 <= i < |ClientPrefixes| ensures !StartsWith(withdraw, ClientPrefixes[i]) {
      assert withdraw[..|ClientPrefixes[i]|][2] == withdraw[2] == 'o';
    }
  }
}
