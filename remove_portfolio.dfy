/**
 * remove_portfolio, the CloudFormation custom resource handler that empties a
 * portfolio before the stack deletes it: on a Delete request it revokes the
 * account's principals, lists the portfolio's products, and for each one deletes
 * the portfolio's launch constraints, removes it from the portfolio and deletes
 * it. Each step's failure is answered with a FAILED response; a SUCCESS response
 * is always sent last.
 *
 * As in the update lambda, each step is a pure "Run" function over the catalog
 * state and a method that issues the same calls through the fake client.
 */
module RemovePortfolio {
  import opened Wrappers
  import opened Normalizer
  import opened Catalog
  import opened ProductListing

  /** The standard user roles of each account (iam_role_list). */
  const IamRoles: seq<string> := ["aws-reserved/sso.amazonaws.com/eu-west-1/AWSReservedSSO_AWSAdministratorAccess_f07f7c1f79215dfb"]

  /** The RequestType of the CloudFormation event. */
  datatype RequestType = Create | Update | Delete | OtherRequest(name: string)

  /** cfnresponse.SUCCESS and cfnresponse.FAILED. */
  datatype Status = SUCCESS | FAILED

  /** One cfnresponse.send: the status and the Message of the response data. */
  datatype Response = Response(status: Status, message: string)

  const SuccessResponse := Response(SUCCESS, "Success")
  const FailureResponse := Response(FAILED, "Failure")

  /*** delete_constraint ***/

  /** Delete each listed constraint in turn; a failed deletion raises (only IndexError would be caught). */
  function DeleteEachRun(s: State, constraintIds: seq<Id>): (r: (State, Outcome))
    ensures s.log <= r.0.log && r.0.products == s.products && r.0.principals == s.principals && r.0.faults == s.faults
    ensures r.1.Raised? ==> r.1.error.Sdk?
    decreases |constraintIds|
  {
    if constraintIds == [] then (s, Ok)
    else
      var (s1, reply) := Exec(s, DeleteConstraint(constraintIds[0]));
      if reply.Failed? then (s1, Raised(Sdk(reply.error)))
      else DeleteEachRun(s1, constraintIds[1..])
  }

  /**
   * List every constraint of the portfolio (of all its products: the product id the
   * caller passes is not used) and delete them all.
   */
  function DeleteConstraintsRun(s: State, portfolioId: string): (r: (State, Outcome))
    ensures s.log <= r.0.log && r.0.products == s.products && r.0.principals == s.principals && r.0.faults == s.faults
  {
    var (s1, listed) := Exec(s, ListConstraintsForPortfolio(None, portfolioId));
    if listed.Failed? then (s1, Raised(Sdk(listed.error)))
    else DeleteEachRun(s1, ListedIds(listed))
  }

  method DeleteConstraints(sc: Client, portfolioId: string) returns (o: Outcome)
    modifies sc
    ensures (sc.Snapshot(), o) == DeleteConstraintsRun(old(sc.Snapshot()), portfolioId)
  {
    var listed := sc.Invoke(ListConstraintsForPortfolio(None, portfolioId));
    if listed.Failed? {
      return Raised(Sdk(listed.error));
    }
    var constraintIds := ListedIds(listed);
    for i := 0 to |constraintIds|
      invariant DeleteEachRun(sc.Snapshot(), constraintIds[i..]) == DeleteConstraintsRun(old(sc.Snapshot()), portfolioId)
    {
      assert constraintIds[i..][0] == constraintIds[i] && constraintIds[i..][1..] == constraintIds[i + 1..];
      var reply := sc.Invoke(DeleteConstraint(constraintIds[i]));
      if reply.Failed? {
        return Raised(Sdk(reply.error));
      }
    }
    assert constraintIds[|constraintIds|..] == [];
    o := Ok;
  }

  /*** delete_product ***/

  /**
   * One product's turn: delete the portfolio's constraints and remove the product from
   * the portfolio, either failure raising; then delete the product, a failure there
   * being only logged.
   */
  function DeleteOneRun(s: State, productId: Id, portfolioId: string): (r: (State, Outcome))
    ensures s.log <= r.0.log && r.0.principals == s.principals && r.0.faults == s.faults
  {
    var (s1, o1) := DeleteConstraintsRun(s, portfolioId);
    if o1.Raised? then (s1, o1) else
    var (s2, left) := Exec(s1, DisassociateProductFromPortfolio(productId, portfolioId));
    if left.Failed? then (s2, Raised(Sdk(left.error)))
    else (Exec(s2, DeleteProduct(productId)).0, Ok)
  }

  /** delete_product: each product's turn in order, stopping at the first that raises. */
  function DeleteProductsRun(s: State, productIds: seq<Id>, portfolioId: string): (r: (State, Outcome))
    ensures s.log <= r.0.log && r.0.principals == s.principals && r.0.faults == s.faults
    decreases |productIds|
  {
    if productIds == [] then (s, Ok)
    else
      var (s1, o1) := DeleteOneRun(s, productIds[0], portfolioId);
      if o1.Raised? then (s1, o1)
      else DeleteProductsRun(s1, productIds[1..], portfolioId)
  }

  method DeleteOne(sc: Client, productId: Id, portfolioId: string) returns (o: Outcome)
    modifies sc
    ensures (sc.Snapshot(), o) == DeleteOneRun(old(sc.Snapshot()), productId, portfolioId)
  {
    o := DeleteConstraints(sc, portfolioId);
    if o.Raised? {
      return;
    }
    var left := sc.Invoke(DisassociateProductFromPortfolio(productId, portfolioId));
    if left.Failed? {
      return Raised(Sdk(left.error));
    }
    var deleted := sc.Invoke(DeleteProduct(productId));
  }

  method DeleteProducts(sc: Client, productIds: seq<Id>, portfolioId: string) returns (o: Outcome)
    modifies sc
    ensures (sc.Snapshot(), o) == DeleteProductsRun(old(sc.Snapshot()), productIds, portfolioId)
  {
    for i := 0 to |productIds|
      invariant DeleteProductsRun(sc.Snapshot(), productIds[i..], portfolioId)
             == DeleteProductsRun(old(sc.Snapshot()), productIds, portfolioId)
    {
      assert productIds[i..][0] == productIds[i] && productIds[i..][1..] == productIds[i + 1..];
      o := DeleteOne(sc, productIds[i], portfolioId);
      if o.Raised? {
        return;
      }
    }
    assert productIds[|productIds|..] == [];
    o := Ok;
  }

  /*** disassociate_principal_within_this_account ***/

  /** Revoke each role's access in turn; any failure raises. */
  function DisassociatePrincipalsRun(s: State, roles: seq<string>, portfolioId: string, accountId: string): (r: (State, Outcome))
    ensures r.0.products == s.products && r.0.constraints == s.constraints && r.0.faults == s.faults
    ensures r.0.pageSize == s.pageSize && s.log <= r.0.log
    decreases |roles|
  {
    if roles == [] then (s, Ok)
    else
      var (s1, reply) := Exec(s, DisassociatePrincipalFromPortfolio(portfolioId, RoleArn(accountId, roles[0])));
      if reply.Failed? then (s1, Raised(Sdk(reply.error)))
      else DisassociatePrincipalsRun(s1, roles[1..], portfolioId, accountId)
  }

  method DisassociatePrincipals(sc: Client, roles: seq<string>, portfolioId: string, accountId: string) returns (o: Outcome)
    modifies sc
    ensures (sc.Snapshot(), o) == DisassociatePrincipalsRun(old(sc.Snapshot()), roles, portfolioId, accountId)
  {
    for i := 0 to |roles|
      invariant DisassociatePrincipalsRun(sc.Snapshot(), roles[i..], portfolioId, accountId)
             == DisassociatePrincipalsRun(old(sc.Snapshot()), roles, portfolioId, accountId)
    {
      assert roles[i..][0] == roles[i] && roles[i..][1..] == roles[i + 1..];
      var reply := sc.Invoke(DisassociatePrincipalFromPortfolio(portfolioId, RoleArn(accountId, roles[i])));
      if reply.Failed? {
        return Raised(Sdk(reply.error));
      }
    }
    assert roles[|roles|..] == [];
    o := Ok;
  }

  /*** remove_portfolio ***/

  /** A FAILED response for a step that raised, none for one that returned. */
  function Report(o: Outcome): (r: seq<Response>)
    ensures r == [] || r == [FailureResponse]
  {
    if o.Raised? then [FailureResponse] else []
  }

  /**
   * The handler: the new catalog state and the responses sent, in order. Create and
   * Update answer SUCCESS and fall through to the final SUCCESS. On Delete each step
   * runs whatever the previous one did; when the listing failed, the product ids were
   * never bound and the deletion step raises NameError.
   */
  function RemovePortfolioRun(s: State, request: RequestType, portfolioId: string, accountId: string): (r: (State, seq<Response>))
  {
    match request
    case Create => (s, [SuccessResponse, SuccessResponse])
    case Update => (s, [SuccessResponse, SuccessResponse])
    case OtherRequest(_) => (s, [SuccessResponse])
    case Delete =>
      var (s1, o1) := DisassociatePrincipalsRun(s, IamRoles, portfolioId, accountId);
      var (s2, listing) := ListProductsRun(s1, portfolioId);
      var (s3, o3) := if listing.Failure? then (s2, Raised(NameError)) else DeleteProductsRun(s2, listing.value.0, portfolioId);
      (s3, Report(o1) + (if listing.Failure? then [FailureResponse] else []) + Report(o3) + [SuccessResponse])
  }

  method RemovePortfolio(sc: Client, request: RequestType, portfolioId: string, accountId: string) returns (responses: seq<Response>)
    modifies sc
    ensures (sc.Snapshot(), responses) == RemovePortfolioRun(old(sc.Snapshot()), request, portfolioId, accountId)
  {
    responses := [];
    if request == Create {
      responses := responses + [SuccessResponse];
    }
    if request == Update {
      responses := responses + [SuccessResponse];
    }
    if request == Delete {
      var revoked := DisassociatePrincipals(sc, IamRoles, portfolioId, accountId);
      if revoked.Raised? {
        responses := responses + [FailureResponse];
      }
      assert responses == Report(revoked);
      var listing := ListProductsForPortfolio(sc, portfolioId);
      if listing.Failure? {
        responses := responses + [FailureResponse];
      }
      var deleted: Outcome;
      if listing.Failure? {
        deleted := Raised(NameError);
      } else {
        deleted := DeleteProducts(sc, listing.value.0, portfolioId);
      }
      if deleted.Raised? {
        responses := responses + [FailureResponse];
      }
      assert responses == Report(revoked) + (if listing.Failure? then [FailureResponse] else []) + Report(deleted);
      assert RemovePortfolioRun(old(sc.Snapshot()), request, portfolioId, accountId) == (sc.Snapshot(), responses + [SuccessResponse]);
    }
    responses := responses + [SuccessResponse];
    assert request == Create || request == Update ==> responses == [SuccessResponse, SuccessResponse];
    assert request.OtherRequest? ==> responses == [SuccessResponse];
    assert request != Delete ==> sc.Snapshot() == old(sc.Snapshot());
  }

  /*** Properties ***/

  /** The delete_constraint calls for these ids, in order. */
  function DeleteConstraintCalls(constraintIds: seq<Id>): seq<Call> {
    seq(|constraintIds|, i requires 0 <= i < |constraintIds| => DeleteConstraint(constraintIds[i]))
  }

  /** Deleting the listed constraints raises exactly when the deletion of one of them fails. */
  lemma {:induction false} DeleteEachFails(s: State, constraintIds: seq<Id>)
    ensures DeleteEachRun(s, constraintIds).1.Raised? <==>
      exists i :: 0 <= i < |constraintIds| && DeleteConstraint(constraintIds[i]) in s.faults
    decreases |constraintIds|
  {
    if constraintIds != [] {
      var s1 := Exec(s, DeleteConstraint(constraintIds[0])).0;
      DeleteEachFails(s1, constraintIds[1..]);
      if exists i :: 0 <= i < |constraintIds[1..]| && DeleteConstraint(constraintIds[1..][i]) in s.faults {
        var i :| 0 <= i < |constraintIds[1..]| && DeleteConstraint(constraintIds[1..][i]) in s.faults;
        assert DeleteConstraint(constraintIds[i + 1]) in s.faults;
      }
      if exists i :: 0 <= i < |constraintIds| && DeleteConstraint(constraintIds[i]) in s.faults {
        var i :| 0 <= i < |constraintIds| && DeleteConstraint(constraintIds[i]) in s.faults;
        if i > 0 {
          assert DeleteConstraint(constraintIds[1..][i - 1]) in s.faults;
        }
      }
    }
  }

  /** With no failing call, every listed constraint is deleted, in order. */
  lemma {:induction false} DeleteEachLog(s: State, constraintIds: seq<Id>)
    requires s.faults == map[]
    ensures var (s', o) := DeleteEachRun(s, constraintIds);
      o == Ok && s'.log == s.log + DeleteConstraintCalls(constraintIds)
    decreases |constraintIds|
  {
    if constraintIds == [] {
      assert DeleteConstraintCalls(constraintIds) == [];
    } else {
      var s1 := Exec(s, DeleteConstraint(constraintIds[0])).0;
      DeleteEachLog(s1, constraintIds[1..]);
      assert DeleteConstraintCalls(constraintIds) == [DeleteConstraint(constraintIds[0])] + DeleteConstraintCalls(constraintIds[1..]);
    }
  }

  /** With no failing call, exactly the constraints that were not listed remain. */
  lemma {:induction false} DeleteEachDeletes(s: State, constraintIds: seq<Id>)
    requires s.faults == map[]
    ensures forall c :: c in DeleteEachRun(s, constraintIds).0.constraints <==> c in s.constraints && c.id !in constraintIds
    decreases |constraintIds|
  {
    if constraintIds != [] {
      var s1 := Exec(s, DeleteConstraint(constraintIds[0])).0;
      WithoutConstraintMembers(s.constraints, constraintIds[0]);
      DeleteEachDeletes(s1, constraintIds[1..]);
      assert forall x :: x in constraintIds <==> x == constraintIds[0] || x in constraintIds[1..];
    }
  }

  /** With no failing call, delete_constraint lists the portfolio's constraints and deletes each of them, in order. */
  lemma DeleteConstraintsLog(s: State, portfolioId: string)
    requires s.faults == map[]
    ensures var (s', o) := DeleteConstraintsRun(s, portfolioId);
      && o == Ok
      && s'.log == s.log + [ListConstraintsForPortfolio(None, portfolioId)] + DeleteConstraintCalls(ConstraintPage(s, None, portfolioId))
  {
    var s1 := Exec(s, ListConstraintsForPortfolio(None, portfolioId)).0;
    DeleteEachLog(s1, ConstraintPage(s, None, portfolioId));
  }

  /**
   * With no failing call, delete_constraint removes exactly the constraints on the first
   * page of the listing; when the portfolio's constraints fit in that page, no
   * constraint of the portfolio is left.
   */
  lemma DeleteConstraintsClears(s: State, portfolioId: string)
    requires s.faults == map[]
    ensures var s' := DeleteConstraintsRun(s, portfolioId).0;
      var listed := ConstraintPage(s, None, portfolioId);
      && (forall c :: c in s'.constraints <==> c in s.constraints && c.id !in listed)
      && (|ConstraintIds(s.constraints, None, portfolioId)| <= s.pageSize ==>
            forall c :: c in s'.constraints ==> c.portfolioId != portfolioId)
  {
    var s1 := Exec(s, ListConstraintsForPortfolio(None, portfolioId)).0;
    DeleteEachDeletes(s1, ConstraintPage(s, None, portfolioId));
    ConstraintIdsListsAll(s.constraints, None, portfolioId);
  }

  /** Whether the product with this id is gone, or no longer in the portfolio. */
  predicate Left(products: seq<Product>, productId: Id, portfolioId: string) {
    Find(products, productId).None? || portfolioId !in Find(products, productId).value.portfolios
  }

  /**
   * One product's turn changes the products only when its constraint step and its
   * removal from the portfolio both succeed: then the product leaves the portfolio and,
   * unless its deletion fails, is deleted.
   */
  lemma DeleteOneProducts(s: State, productId: Id, portfolioId: string)
    ensures var (s', o) := DeleteOneRun(s, productId, portfolioId);
      var removed := Modify(s.products, productId, Leave(portfolioId));
      && (o.Raised? ==> s'.products == s.products)
      && (o == Ok ==> s'.products == if DeleteProduct(productId) in s.faults then removed else WithoutProduct(removed, productId))
  {
  }

  /**
   * After a product's turn that returned, it has left the portfolio (or is gone); and a
   * turn keeps every other product that had left the portfolio, or was gone, so.
   */
  lemma DeleteOneLeaves(s: State, productId: Id, portfolioId: string, x: Id)
    ensures var (s', o) := DeleteOneRun(s, productId, portfolioId);
      && (o == Ok ==> Left(s'.products, productId, portfolioId))
      && (Left(s.products, x, portfolioId) ==> Left(s'.products, x, portfolioId))
      && (Find(s.products, x).None? ==> Find(s'.products, x).None?)
  {
    DeleteOneProducts(s, productId, portfolioId);
    var (s', o) := DeleteOneRun(s, productId, portfolioId);
    if o == Ok {
      LeftAfterRemoval(s.products, productId, portfolioId, x, s'.products);
    }
  }

  /**
   * Once the product is removed from the portfolio, and possibly deleted, it has left
   * the portfolio, and every product that had left it, or was gone, still has or is.
   */
  lemma LeftAfterRemoval(products: seq<Product>, productId: Id, portfolioId: string, x: Id, after: seq<Product>)
    requires var removed := Modify(products, productId, Leave(portfolioId));
      after == removed || after == WithoutProduct(removed, productId)
    ensures Left(after, productId, portfolioId)
    ensures Left(products, x, portfolioId) ==> Left(after, x, portfolioId)
    ensures Find(products, x).None? ==> Find(after, x).None?
  {
    var removed := Modify(products, productId, Leave(portfolioId));
    FindModify(products, productId, Leave(portfolioId), x);
    FindWithoutProduct(removed, productId, x);
    FindModify(products, productId, Leave(portfolioId), productId);
    FindWithoutProduct(removed, productId, productId);
  }

  /** No call of a product's turn can fail except its delete_product. */
  predicate TurnsGoThrough(faults: map<Call, SdkError>) {
    forall c :: c in faults ==> !c.ListConstraintsForPortfolio? && !c.DeleteConstraint? && !c.DisassociateProductFromPortfolio?
  }

  /** A product's turn raises only when a constraint call or its removal from the portfolio fails. */
  lemma DeleteOneReturns(s: State, productId: Id, portfolioId: string)
    requires TurnsGoThrough(s.faults)
    ensures DeleteOneRun(s, productId, portfolioId).1 == Ok
  {
    var (s1, listed) := Exec(s, ListConstraintsForPortfolio(None, portfolioId));
    DeleteEachFails(s1, ListedIds(listed));
  }

  /**
   * A product's turn raises exactly when the constraint listing, the deletion of one
   * listed constraint, or the product's removal from the portfolio fails, and what it
   * raises is that SDK error.
   */
  lemma DeleteOneRaises(s: State, productId: Id, portfolioId: string)
    ensures var o := DeleteOneRun(s, productId, portfolioId).1;
      var listed := ConstraintPage(s, None, portfolioId);
      && (o.Raised? <==>
            || ListConstraintsForPortfolio(None, portfolioId) in s.faults
            || (exists i :: 0 <= i < |listed| && DeleteConstraint(listed[i]) in s.faults)
            || DisassociateProductFromPortfolio(productId, portfolioId) in s.faults)
      && (o.Raised? ==> o.error.Sdk?)
  {
    var (s1, listed) := Exec(s, ListConstraintsForPortfolio(None, portfolioId));
    DeleteEachFails(s1, ListedIds(listed));
  }

  /** A turn adds its product to the deletions when it returns, and nothing when it raises. */
  lemma DeleteOneDeletes(s: State, productId: Id, portfolioId: string)
    ensures var (s', o) := DeleteOneRun(s, productId, portfolioId);
      Deletions(s'.log) == Deletions(s.log) + (if o == Ok then [productId] else [])
  {
    var (s0, listed) := Exec(s, ListConstraintsForPortfolio(None, portfolioId));
    DeletionsAppend(s.log, [ListConstraintsForPortfolio(None, portfolioId)]);
    DeletionsOne(ListConstraintsForPortfolio(None, portfolioId));
    var (s1, o1) := DeleteConstraintsRun(s, portfolioId);
    if !listed.Failed? {
      DeleteEachKeepsDeletions(s0, ListedIds(listed));
    }
    if o1 == Ok {
      var s2 := Exec(s1, DisassociateProductFromPortfolio(productId, portfolioId)).0;
      DeletionsAppend(s1.log, [DisassociateProductFromPortfolio(productId, portfolioId)]);
      DeletionsOne(DisassociateProductFromPortfolio(productId, portfolioId));
      DeletionsAppend(s2.log, [DeleteProduct(productId)]);
      DeletionsOne(DeleteProduct(productId));
    }
  }

  /** Deleting constraints deletes no product. */
  lemma {:induction false} DeleteEachKeepsDeletions(s: State, constraintIds: seq<Id>)
    ensures Deletions(DeleteEachRun(s, constraintIds).0.log) == Deletions(s.log)
    decreases |constraintIds|
  {
    if constraintIds != [] {
      var s1 := Exec(s, DeleteConstraint(constraintIds[0])).0;
      DeletionsAppend(s.log, [DeleteConstraint(constraintIds[0])]);
      DeletionsOne(DeleteConstraint(constraintIds[0]));
      DeleteEachKeepsDeletions(s1, constraintIds[1..]);
    }
  }

  /** A turn leaves every other product where a lookup finds it, as it was. */
  lemma DeleteOneKeepsOthers(s: State, productId: Id, portfolioId: string, x: Id)
    requires x != productId
    ensures Find(DeleteOneRun(s, productId, portfolioId).0.products, x) == Find(s.products, x)
  {
    DeleteOneProducts(s, productId, portfolioId);
    var removed := Modify(s.products, productId, Leave(portfolioId));
    FindModify(s.products, productId, Leave(portfolioId), x);
    FindWithoutProduct(removed, productId, x);
  }


  /** delete_product leaves every product it was not given as it was. */
  lemma {:induction false} DeleteProductsKeepsOthers(s: State, productIds: seq<Id>, portfolioId: string, x: Id)
    requires x !in productIds
    ensures Find(DeleteProductsRun(s, productIds, portfolioId).0.products, x) == Find(s.products, x)
    decreases |productIds|
  {
    if productIds != [] {
      DeleteOneKeepsOthers(s, productIds[0], portfolioId, x);
      var s1 := DeleteOneRun(s, productIds[0], portfolioId).0;
      assert x !in productIds[1..];
      DeleteProductsKeepsOthers(s1, productIds[1..], portfolioId, x);
    }
  }

  /** How many turns of delete_product return before one raises (all of them if none does). */
  function Completed(s: State, productIds: seq<Id>, portfolioId: string): (k: nat)
    ensures k <= |productIds|
    decreases |productIds|
  {
    if productIds == [] then 0
    else
      var (s1, o1) := DeleteOneRun(s, productIds[0], portfolioId);
      if o1.Raised? then 0 else 1 + Completed(s1, productIds[1..], portfolioId)
  }

  /**
   * Whatever fails, the loop stops at the first turn that raises: the turns before it
   * each delete their product, and no product from that turn on gets a delete_product
   * call. It returns exactly when no turn raises.
   */
  lemma {:induction false} DeleteProductsStops(s: State, productIds: seq<Id>, portfolioId: string)
    ensures var (s', o) := DeleteProductsRun(s, productIds, portfolioId);
      var k := Completed(s, productIds, portfolioId);
      && (o.Raised? <==> k < |productIds|)
      && Deletions(s'.log) == Deletions(s.log) + productIds[..k]
    decreases |productIds|
  {
    if productIds != [] {
      var (s1, o1) := DeleteOneRun(s, productIds[0], portfolioId);
      DeleteOneDeletes(s, productIds[0], portfolioId);
      if o1.Ok? {
        DeleteProductsStops(s1, productIds[1..], portfolioId);
        var k := Completed(s1, productIds[1..], portfolioId);
        var s' := DeleteProductsRun(s1, productIds[1..], portfolioId).0;
        PrefixCons(Deletions(s.log), Deletions(s1.log), Deletions(s'.log), productIds, k);
      }
    }
  }

  /** Extending by the head of xs and then by k entries of its tail is extending by k + 1 entries of xs. */
  lemma PrefixCons<T>(before: seq<T>, middle: seq<T>, after: seq<T>, xs: seq<T>, k: nat)
    requires xs != [] && k < |xs| && middle == before + [xs[0]] && after == middle + xs[1..][..k]
    ensures after == before + xs[..k + 1]
  {
    assert xs[..k + 1] == [xs[0]] + xs[1..][..k];
  }


  /**
   * With no failing call, a product's turn lists and deletes the portfolio's
   * constraints, then removes the product from the portfolio and deletes it.
   */
  lemma DeleteOneLog(s: State, productId: Id, portfolioId: string)
    requires s.faults == map[]
    ensures var (s', o) := DeleteOneRun(s, productId, portfolioId);
      && o == Ok
      && s'.log == s.log + ([ListConstraintsForPortfolio(None, portfolioId)] + DeleteConstraintCalls(ConstraintPage(s, None, portfolioId)))
                        + [DisassociateProductFromPortfolio(productId, portfolioId), DeleteProduct(productId)]
  {
    var s1 := DeleteConstraintsRun(s, portfolioId).0;
    DeleteConstraintsLog(s, portfolioId);
    var s2 := Exec(s1, DisassociateProductFromPortfolio(productId, portfolioId)).0;
    var s3 := Exec(s2, DeleteProduct(productId)).0;
    assert DeleteOneRun(s, productId, portfolioId) == (s3, Ok);
    AppendTwo(s.log, s1.log, s2.log, s3.log, ListConstraintsForPortfolio(None, portfolioId),
              DeleteConstraintCalls(ConstraintPage(s, None, portfolioId)),
              DisassociateProductFromPortfolio(productId, portfolioId), DeleteProduct(productId));
  }

  /** A log extended by a call and a list of calls, then by two more calls. */
  lemma AppendTwo<T>(a: seq<T>, b: seq<T>, c: seq<T>, d: seq<T>, first: T, calls: seq<T>, x: T, y: T)
    requires b == a + [first] + calls && c == b + [x] && d == c + [y]
    ensures d == a + ([first] + calls) + [x, y]
  {
    assert [x] + [y] == [x, y];
  }

  /**
   * With no failing call and the portfolio's constraints within one page, no constraint
   * of the portfolio is left after a product's turn.
   */
  lemma DeleteOneClears(s: State, productId: Id, portfolioId: string)
    requires s.faults == map[]
    ensures |ConstraintIds(s.constraints, None, portfolioId)| <= s.pageSize ==>
      forall c :: c in DeleteOneRun(s, productId, portfolioId).0.constraints ==> c.portfolioId != portfolioId
  {
    DeleteConstraintsLog(s, portfolioId);
    DeleteConstraintsClears(s, portfolioId);
  }

  /** With no failing call, a product's turn deletes exactly that product. */
  lemma DeleteOneDeletions(s: State, productId: Id, portfolioId: string)
    requires s.faults == map[]
    ensures Deletions(DeleteOneRun(s, productId, portfolioId).0.log) == Deletions(s.log) + [productId]
  {
    DeleteOneLog(s, productId, portfolioId);
    var calls := [ListConstraintsForPortfolio(None, portfolioId)] + DeleteConstraintCalls(ConstraintPage(s, None, portfolioId));
    var turn := [DisassociateProductFromPortfolio(productId, portfolioId), DeleteProduct(productId)];
    DeletionsNone(calls);
    DeletionsAppend(s.log + calls, turn);
    DeletionsAppend(s.log, calls);
    assert Deletions(turn) == [productId] by {
      var last := [DeleteProduct(productId)];
      assert turn[1..] == last && last[1..] == [];
      assert Deletions(last) == [productId] + Deletions([]);
      assert Deletions(turn) == [] + Deletions(last);
    }
  }

  /** A product that has left the portfolio, or is gone, stays so through delete_product. */
  lemma {:induction false} DeleteProductsKeepsLeft(s: State, productIds: seq<Id>, portfolioId: string, x: Id)
    requires Left(s.products, x, portfolioId)
    ensures Left(DeleteProductsRun(s, productIds, portfolioId).0.products, x, portfolioId)
    decreases |productIds|
  {
    if productIds != [] {
      DeleteOneLeaves(s, productIds[0], portfolioId, x);
      var s1 := DeleteOneRun(s, productIds[0], portfolioId).0;
      DeleteProductsKeepsLeft(s1, productIds[1..], portfolioId, x);
    }
  }

  /** A product that is gone stays gone through delete_product. */
  lemma {:induction false} DeleteProductsKeepsAbsent(s: State, productIds: seq<Id>, portfolioId: string, x: Id)
    requires Find(s.products, x).None?
    ensures Find(DeleteProductsRun(s, productIds, portfolioId).0.products, x).None?
    decreases |productIds|
  {
    if productIds != [] {
      DeleteOneLeaves(s, productIds[0], portfolioId, x);
      var s1 := DeleteOneRun(s, productIds[0], portfolioId).0;
      DeleteProductsKeepsAbsent(s1, productIds[1..], portfolioId, x);
    }
  }

  /**
   * A failing delete_product call is only logged: when no call of the turns but
   * delete_product can fail, the step returns and every product has left the portfolio
   * (or is gone) at the end.
   */
  lemma {:induction false} DeleteProductsToleratesFailedDeletes(s: State, productIds: seq<Id>, portfolioId: string)
    requires TurnsGoThrough(s.faults)
    ensures var (s', o) := DeleteProductsRun(s, productIds, portfolioId);
      && o == Ok
      && (forall x :: x in productIds ==> Left(s'.products, x, portfolioId))
    decreases |productIds|
  {
    if productIds != [] {
      var productId := productIds[0];
      DeleteOneReturns(s, productId, portfolioId);
      DeleteOneLeaves(s, productId, portfolioId, productId);
      var s1 := DeleteOneRun(s, productId, portfolioId).0;
      DeleteProductsToleratesFailedDeletes(s1, productIds[1..], portfolioId);
      DeleteProductsKeepsLeft(s1, productIds[1..], portfolioId, productId);
      forall x | x in productIds
        ensures Left(DeleteProductsRun(s, productIds, portfolioId).0.products, x, portfolioId)
      {
        if x != productId {
          assert x in productIds[1..];
        }
      }
    }
  }

  /** With no failing call, delete_product deletes every listed product, in order. */
  lemma {:induction false} DeleteProductsDeletes(s: State, productIds: seq<Id>, portfolioId: string)
    requires s.faults == map[]
    ensures var (s', o) := DeleteProductsRun(s, productIds, portfolioId);
      o == Ok && Deletions(s'.log) == Deletions(s.log) + productIds
    decreases |productIds|
  {
    if productIds != [] {
      var s1 := DeleteFirst(s, productIds, portfolioId);
      DeleteProductsDeletes(s1, productIds[1..], portfolioId);
      var s' := DeleteProductsRun(s1, productIds[1..], portfolioId).0;
      ConsStep(Deletions(s.log), Deletions(s1.log), Deletions(s'.log), productIds);
    }
  }

  /** Extending by the head of xs and then by its tail is extending by xs. */
  lemma ConsStep<T>(before: seq<T>, middle: seq<T>, after: seq<T>, xs: seq<T>)
    requires xs != [] && middle == before + [xs[0]] && after == middle + xs[1..]
    ensures after == before + xs
  {
    assert xs == [xs[0]] + xs[1..];
  }

  /**
   * With no failing call, delete_product goes on after the first product's turn, which
   * deletes exactly that product; s1 is the state after that turn.
   */
  lemma DeleteFirst(s: State, productIds: seq<Id>, portfolioId: string) returns (s1: State)
    requires s.faults == map[] && productIds != []
    ensures s1.faults == map[]
    ensures DeleteProductsRun(s, productIds, portfolioId) == DeleteProductsRun(s1, productIds[1..], portfolioId)
    ensures Deletions(s1.log) == Deletions(s.log) + [productIds[0]]
  {
    s1 := DeleteOneRun(s, productIds[0], portfolioId).0;
    DeleteOneReturns(s, productIds[0], portfolioId);
    DeleteOneDeletions(s, productIds[0], portfolioId);
  }

  /**
   * With no failing call, at least one listed product and the portfolio's constraints
   * within one page, no constraint of the portfolio is left: the first turn deletes them
   * all, and later turns list none.
   */
  lemma {:induction false} DeleteProductsClears(s: State, productIds: seq<Id>, portfolioId: string)
    requires s.faults == map[] && productIds != []
    ensures |ConstraintIds(s.constraints, None, portfolioId)| <= s.pageSize ==>
      forall c :: c in DeleteProductsRun(s, productIds, portfolioId).0.constraints ==> c.portfolioId != portfolioId
    decreases |productIds|
  {
    var productId := productIds[0];
    DeleteOneReturns(s, productId, portfolioId);
    var s1 := DeleteOneRun(s, productId, portfolioId).0;
    if |ConstraintIds(s.constraints, None, portfolioId)| <= s.pageSize {
      DeleteOneClears(s, productId, portfolioId);
      if productIds[1..] != [] {
        ConstraintIdsEmpty(s1.constraints, portfolioId);
        DeleteProductsClears(s1, productIds[1..], portfolioId);
      }
    }
  }

  /** With no failing call, none of the listed products can be found afterwards. */
  lemma {:induction false} DeleteProductsRemoves(s: State, productIds: seq<Id>, portfolioId: string)
    requires s.faults == map[]
    ensures forall x :: x in productIds ==> Find(DeleteProductsRun(s, productIds, portfolioId).0.products, x).None?
    decreases |productIds|
  {
    if productIds != [] {
      var productId := productIds[0];
      DeleteOneProducts(s, productId, portfolioId);
      DeleteOneReturns(s, productId, portfolioId);
      var s1 := DeleteOneRun(s, productId, portfolioId).0;
      FindWithoutProduct(Modify(s.products, productId, Leave(portfolioId)), productId, productId);
      DeleteProductsKeepsAbsent(s1, productIds[1..], portfolioId, productId);
      DeleteProductsRemoves(s1, productIds[1..], portfolioId);
      forall x | x in productIds
        ensures Find(DeleteProductsRun(s, productIds, portfolioId).0.products, x).None?
      {
        if x != productId {
          assert x in productIds[1..];
        }
      }
    }
  }

  /** Revoking principals deletes no product. */
  lemma {:induction false} DisassociateKeepsDeletions(s: State, roles: seq<string>, portfolioId: string, accountId: string)
    ensures Deletions(DisassociatePrincipalsRun(s, roles, portfolioId, accountId).0.log) == Deletions(s.log)
    decreases |roles|
  {
    if roles != [] {
      var c := DisassociatePrincipalFromPortfolio(portfolioId, RoleArn(accountId, roles[0]));
      DeletionsAppend(s.log, [c]);
      DeletionsOne(c);
      DisassociateKeepsDeletions(Exec(s, c).0, roles[1..], portfolioId, accountId);
    }
  }

  /** The disassociate_principal_from_portfolio calls for each role, in order. */
  function DisassociateCalls(roles: seq<string>, portfolioId: string, accountId: string): seq<Call> {
    seq(|roles|, i requires 0 <= i < |roles| => DisassociatePrincipalFromPortfolio(portfolioId, RoleArn(accountId, roles[i])))
  }

  /** Revoking the roles raises exactly when the call for one of them fails. */
  lemma {:induction false} DisassociatePrincipalsFails(s: State, roles: seq<string>, portfolioId: string, accountId: string)
    ensures DisassociatePrincipalsRun(s, roles, portfolioId, accountId).1.Raised? <==>
      exists i :: 0 <= i < |roles| && DisassociatePrincipalFromPortfolio(portfolioId, RoleArn(accountId, roles[i])) in s.faults
    decreases |roles|
  {
    if roles != [] {
      var s1 := Exec(s, DisassociatePrincipalFromPortfolio(portfolioId, RoleArn(accountId, roles[0]))).0;
      DisassociatePrincipalsFails(s1, roles[1..], portfolioId, accountId);
      if exists i :: 0 <= i < |roles[1..]| && DisassociatePrincipalFromPortfolio(portfolioId, RoleArn(accountId, roles[1..][i])) in s.faults {
        var i :| 0 <= i < |roles[1..]| && DisassociatePrincipalFromPortfolio(portfolioId, RoleArn(accountId, roles[1..][i])) in s.faults;
        assert roles[1..][i] == roles[i + 1];
      }
      if exists i :: 0 <= i < |roles| && DisassociatePrincipalFromPortfolio(portfolioId, RoleArn(accountId, roles[i])) in s.faults {
        var i :| 0 <= i < |roles| && DisassociatePrincipalFromPortfolio(portfolioId, RoleArn(accountId, roles[i])) in s.faults;
        if i > 0 {
          assert roles[i] == roles[1..][i - 1];
        }
      }
    }
  }

  /**
   * When none of the roles' calls fails, every role is revoked, in order, no principal
   * is added, and the step returns.
   */
  lemma {:induction false} DisassociatePrincipalsRevokes(s: State, roles: seq<string>, portfolioId: string, accountId: string)
    requires forall i :: 0 <= i < |roles| ==> DisassociatePrincipalFromPortfolio(portfolioId, RoleArn(accountId, roles[i])) !in s.faults
    ensures var (s', o) := DisassociatePrincipalsRun(s, roles, portfolioId, accountId);
      && o == Ok
      && s'.log == s.log + DisassociateCalls(roles, portfolioId, accountId)
      && s'.principals <= s.principals
      && (forall i :: 0 <= i < |roles| ==> Principal(portfolioId, RoleArn(accountId, roles[i])) !in s'.principals)
    decreases |roles|
  {
    if roles == [] {
      assert DisassociateCalls(roles, portfolioId, accountId) == [];
    } else {
      var s1 := Exec(s, DisassociatePrincipalFromPortfolio(portfolioId, RoleArn(accountId, roles[0]))).0;
      forall i | 0 <= i < |roles[1..]|
        ensures DisassociatePrincipalFromPortfolio(portfolioId, RoleArn(accountId, roles[1..][i])) !in s1.faults
      {
        assert roles[1..][i] == roles[i + 1];
      }
      DisassociatePrincipalsRevokes(s1, roles[1..], portfolioId, accountId);
      assert DisassociateCalls(roles, portfolioId, accountId)
          == [DisassociatePrincipalFromPortfolio(portfolioId, RoleArn(accountId, roles[0]))] + DisassociateCalls(roles[1..], portfolioId, accountId);
      forall i | 0 < i < |roles|
        ensures roles[i] == roles[1..][i - 1]
      {
      }
    }
  }

  /** Create, Update and any other request make no call; Create and Update answer SUCCESS twice. */
  lemma NothingToDoUnlessDelete(s: State, request: RequestType, portfolioId: string, accountId: string)
    requires request != Delete
    ensures var (s', responses) := RemovePortfolioRun(s, request, portfolioId, accountId);
      && s' == s
      && responses == if request == Create || request == Update then [SuccessResponse, SuccessResponse] else [SuccessResponse]
  {
  }

  /**
   * Whatever fails, the last response is SUCCESS; on Delete, every earlier response is
   * FAILED, one for each step that failed.
   */
  lemma EndsWithSuccess(s: State, request: RequestType, portfolioId: string, accountId: string)
    ensures var responses := RemovePortfolioRun(s, request, portfolioId, accountId).1;
      && 1 <= |responses| <= 4
      && responses[|responses| - 1] == SuccessResponse
      && (request == Delete ==> forall i :: 0 <= i < |responses| - 1 ==> responses[i] == FailureResponse)
  {
    if request == Delete {
      var (s1, o1) := DisassociatePrincipalsRun(s, IamRoles, portfolioId, accountId);
      var (s2, listing) := ListProductsRun(s1, portfolioId);
      var (s3, o3) := if listing.Failure? then (s2, Raised(NameError)) else DeleteProductsRun(s2, listing.value.0, portfolioId);
      FailuresThenSuccess(Report(o1), if listing.Failure? then [FailureResponse] else [], Report(o3));
    }
  }

  /** Up to three optional FAILED responses followed by SUCCESS. */
  lemma FailuresThenSuccess(a: seq<Response>, b: seq<Response>, c: seq<Response>)
    requires a == [] || a == [FailureResponse]
    requires b == [] || b == [FailureResponse]
    requires c == [] || c == [FailureResponse]
    ensures var responses := a + b + c + [SuccessResponse];
      && 1 <= |responses| <= 4
      && responses[|responses| - 1] == SuccessResponse
      && forall i :: 0 <= i < |responses| - 1 ==> responses[i] == FailureResponse
  {
  }

  /**
   * When the product listing fails, nothing is deleted, and two FAILED responses (the
   * listing's, then the deletion step's NameError) precede the final SUCCESS.
   */
  lemma FailedListingReportsTwice(s: State, portfolioId: string, accountId: string)
    requires SearchProductsAsAdmin(portfolioId) in s.faults
    ensures var (s', responses) := RemovePortfolioRun(s, Delete, portfolioId, accountId);
      && |responses| >= 3
      && responses[|responses| - 3..] == [FailureResponse, FailureResponse, SuccessResponse]
      && s'.products == s.products && s'.constraints == s.constraints
      && s'.log[|s'.log| - 1] == SearchProductsAsAdmin(portfolioId)
  {
    var (s1, o1) := DisassociatePrincipalsRun(s, IamRoles, portfolioId, accountId);
    ListProductsSpec(s1, portfolioId);
  }

  /**
   * With no failing call, a Delete request revokes the roles, then lists the portfolio,
   * then deletes each of its products in listing order; only SUCCESS is answered.
   */
  lemma DeleteRequestOrder(s: State, portfolioId: string, accountId: string)
    requires s.faults == map[]
    ensures var (s', responses) := RemovePortfolioRun(s, Delete, portfolioId, accountId);
      var head := s.log + DisassociateCalls(IamRoles, portfolioId, accountId) + [SearchProductsAsAdmin(portfolioId)];
      && responses == [SuccessResponse]
      && head <= s'.log
      && Deletions(s'.log) == Deletions(head) + ViewIds(ProductPage(s, portfolioId))
      && Principal(portfolioId, RoleArn(accountId, IamRoles[0])) !in s'.principals
  {
    var (s1, o1) := DisassociatePrincipalsRun(s, IamRoles, portfolioId, accountId);
    assert o1 == Ok && s1.log == s.log + DisassociateCalls(IamRoles, portfolioId, accountId)
        && Principal(portfolioId, RoleArn(accountId, IamRoles[0])) !in s1.principals by {
      DisassociatePrincipalsRevokes(s, IamRoles, portfolioId, accountId);
    }
    var (s2, listing) := ListProductsRun(s1, portfolioId);
    var ids := ViewIds(ProductPage(s, portfolioId));
    assert listing.Success? && listing.value.0 == ids && s2.log == s1.log + [SearchProductsAsAdmin(portfolioId)];
    var (s3, o3) := DeleteProductsRun(s2, ids, portfolioId);
    assert o3 == Ok && Deletions(s3.log) == Deletions(s2.log) + ids by {
      DeleteProductsDeletes(s2, ids, portfolioId);
    }
  }

  /**
   * With no failing call, a Delete request leaves none of the portfolio's products in
   * the catalog when they fit in one page of the search, and none of its constraints
   * when it had a product and its constraints fit in one page of their listing.
   */
  lemma DeleteRequestEmptiesPortfolio(s: State, portfolioId: string, accountId: string)
    requires s.faults == map[]
    ensures var s' := RemovePortfolioRun(s, Delete, portfolioId, accountId).0;
      && (|Views(s.products, portfolioId)| <= s.pageSize ==>
            forall p :: p in s.products && portfolioId in p.portfolios ==> Find(s'.products, p.id).None?)
      && (Views(s.products, portfolioId) != [] && 0 < s.pageSize
          && |ConstraintIds(s.constraints, None, portfolioId)| <= s.pageSize ==>
            forall c :: c in s'.constraints ==> c.portfolioId != portfolioId)
  {
    var (s1, o1) := DisassociatePrincipalsRun(s, IamRoles, portfolioId, accountId);
    ListProductsSpec(s1, portfolioId);
    var (s2, listing) := ListProductsRun(s1, portfolioId);
    var ids := listing.value.0;
    assert ids == ViewIds(ProductPage(s, portfolioId));
    DeleteProductsRemoves(s2, ids, portfolioId);
    if ids != [] {
      DeleteProductsClears(s2, ids, portfolioId);
    }
    if |Views(s.products, portfolioId)| <= s.pageSize {
      forall p | p in s.products && portfolioId in p.portfolios
        ensures p.id in ids
      {
        var i :| 0 <= i < |ids| && ids[i] == p.id && listing.value.1[i] == Normalize(p.name);
      }
    }
  }

  /**
   * Whatever fails, a Delete request leaves every product the search did not list as it
   * was: a portfolio larger than one page keeps the products after the first page.
   */
  lemma DeleteRequestKeepsUnlisted(s: State, portfolioId: string, accountId: string, x: Id)
    requires x !in ViewIds(ProductPage(s, portfolioId))
    ensures Find(RemovePortfolioRun(s, Delete, portfolioId, accountId).0.products, x) == Find(s.products, x)
  {
    var (s1, o1) := DisassociatePrincipalsRun(s, IamRoles, portfolioId, accountId);
    ListProductsSpec(s1, portfolioId);
    var (s2, listing) := ListProductsRun(s1, portfolioId);
    if listing.Success? {
      DeleteProductsKeepsOthers(s2, listing.value.0, portfolioId, x);
    }
  }

  /**
   * With distinct product ids, the portfolio's product right after the first page of
   * the search survives a Delete request.
   */
  lemma DeleteRequestMissesLaterPages(s: State, portfolioId: string, accountId: string)
    requires |Views(s.products, portfolioId)| > s.pageSize
    requires var all := Views(s.products, portfolioId);
      forall a, b :: 0 <= a < b < |all| ==> all[a].id != all[b].id
    ensures var x := Views(s.products, portfolioId)[s.pageSize].id;
      Find(RemovePortfolioRun(s, Delete, portfolioId, accountId).0.products, x) == Find(s.products, x)
  {
    PageMissesNext(Views(s.products, portfolioId), s.pageSize);
    DeleteRequestKeepsUnlisted(s, portfolioId, accountId, Views(s.products, portfolioId)[s.pageSize].id);
  }

  /**
   * A failed revocation is answered FAILED, but the handler goes on: it still searches
   * the portfolio and deletes every listed product, and then answers SUCCESS.
   */
  lemma RevocationFailureContinues(s: State, portfolioId: string, accountId: string)
    requires forall c :: c in s.faults ==> c.DisassociatePrincipalFromPortfolio?
    ensures var (s', responses) := RemovePortfolioRun(s, Delete, portfolioId, accountId);
      var failed := exists i :: 0 <= i < |IamRoles| && DisassociatePrincipalFromPortfolio(portfolioId, RoleArn(accountId, IamRoles[i])) in s.faults;
      && responses == (if failed then [FailureResponse] else []) + [SuccessResponse]
      && SearchProductsAsAdmin(portfolioId) in s'.log
      && Deletions(s'.log) == Deletions(s.log) + ViewIds(ProductPage(s, portfolioId))
  {
    var (s1, o1) := DisassociatePrincipalsRun(s, IamRoles, portfolioId, accountId);
    var s2 := s1.(log := s1.log + [SearchProductsAsAdmin(portfolioId)]);
    var ids := ViewIds(ProductPage(s, portfolioId));
    RevokedThenDeleted(s, portfolioId, accountId);
    assert o1.Raised? <==> exists i :: 0 <= i < |IamRoles| && DisassociatePrincipalFromPortfolio(portfolioId, RoleArn(accountId, IamRoles[i])) in s.faults by {
      DisassociatePrincipalsFails(s, IamRoles, portfolioId, accountId);
    }
  }

  /**
   * The steps of a Delete request when only revocation calls can fail: the search after
   * the revocations succeeds with the first page, every listed product's turn returns,
   * and only those turns delete products.
   */
  lemma RevokedThenDeleted(s: State, portfolioId: string, accountId: string)
    requires forall c :: c in s.faults ==> c.DisassociatePrincipalFromPortfolio?
    ensures var s1 := DisassociatePrincipalsRun(s, IamRoles, portfolioId, accountId).0;
      var s2 := s1.(log := s1.log + [SearchProductsAsAdmin(portfolioId)]);
      var ids := ViewIds(ProductPage(s, portfolioId));
      var (s3, o3) := DeleteProductsRun(s2, ids, portfolioId);
      && ListProductsRun(s1, portfolioId).0 == s2
      && ListProductsRun(s1, portfolioId).1.Success? && ListProductsRun(s1, portfolioId).1.value.0 == ids
      && o3 == Ok
      && SearchProductsAsAdmin(portfolioId) in s3.log
      && Deletions(s3.log) == Deletions(s.log) + ids
  {
    var s1 := DisassociatePrincipalsRun(s, IamRoles, portfolioId, accountId).0;
    var s2 := s1.(log := s1.log + [SearchProductsAsAdmin(portfolioId)]);
    var ids := ViewIds(ProductPage(s, portfolioId));
    assert ListProductsRun(s1, portfolioId).0 == s2
        && ListProductsRun(s1, portfolioId).1.Success? && ListProductsRun(s1, portfolioId).1.value.0 == ids by {
      ListProductsPage(s1, portfolioId);
    }
    assert Deletions(s2.log) == Deletions(s.log) by {
      DisassociateKeepsDeletions(s, IamRoles, portfolioId, accountId);
      DeletionsAppend(s1.log, [SearchProductsAsAdmin(portfolioId)]);
      DeletionsOne(SearchProductsAsAdmin(portfolioId));
    }
    var (s3, o3) := DeleteProductsRun(s2, ids, portfolioId);
    assert o3 == Ok && Deletions(s3.log) == Deletions(s2.log) + ids by {
      assert TurnsGoThrough(s2.faults);
      DeleteAllListed(s2, ids, portfolioId);
    }
    assert SearchProductsAsAdmin(portfolioId) in s3.log by {
      assert s2.log <= s3.log && s2.log[|s2.log| - 1] == SearchProductsAsAdmin(portfolioId);
    }
  }




  /** When no call of the turns but delete_product can fail, every turn returns and deletes its product. */
  lemma DeleteAllListed(s: State, productIds: seq<Id>, portfolioId: string)
    requires TurnsGoThrough(s.faults)
    ensures var (s', o) := DeleteProductsRun(s, productIds, portfolioId);
      o == Ok && Deletions(s'.log) == Deletions(s.log) + productIds
  {
    DeleteProductsToleratesFailedDeletes(s, productIds, portfolioId);
    DeleteProductsStops(s, productIds, portfolioId);
    assert productIds[..|productIds|] == productIds;
  }


}
