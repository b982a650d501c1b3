/**
 * A fake of the boto3 clients the catalog lambdas call (Service Catalog, plus the S3
 * upload of a template). Every SDK call is a `Call` value; `Exec` appends it to the
 * operation log and applies its effect to the catalog state. A call fails exactly
 * when it is a key of the injected `faults` map, with the SDK error mapped to it,
 * and then changes nothing but the log. The two paged listings the lambdas call,
 * search_products_as_admin and list_constraints_for_portfolio, answer with their
 * first page only (`pageSize` entries), since no caller passes a page token.
 */
module Catalog {
  import opened Wrappers

  type Id = nat

  /** What a boto3 client raises: a ClientError with an error code, or another exception. */
  datatype SdkError = ClientError(code: string) | OtherSdkError(name: string)

  /** The exceptions the lambda code can end with. */
  datatype Error =
    | Sdk(sdkError: SdkError)  // raised by an SDK call
    | KeyError(key: string)    // a missing config section or option
    | IndexError               // a list index out of range
    | NameError                // a local variable read before assignment

  /** The ProvisioningArtifactParameters / Parameters of a new version. */
  datatype ArtifactSpec = ArtifactSpec(name: string, description: string, templateUrl: string, artifactType: string)

  /** The arguments of create_product. */
  datatype ProductSpec = ProductSpec(
    name: string, owner: string, description: string, supportDescription: string,
    supportEmail: string, supportUrl: string, productType: string,
    tagKey: string, tagValue: string, artifact: ArtifactSpec)

  /** A product: its id, display name, the portfolios it belongs to and its versions, oldest first. */
  datatype Product = Product(id: Id, name: string, portfolios: set<string>, artifacts: seq<Id>)

  /** A launch constraint of a product within a portfolio. */
  datatype Constraint = Constraint(id: Id, productId: Id, portfolioId: string, parameters: string)

  /** A principal (IAM role ARN) granted access to a portfolio. */
  datatype Principal = Principal(portfolioId: string, arn: string)

  /** One summary of search_products_as_admin. */
  datatype ProductView = ProductView(id: Id, name: string)

  datatype Call =
    | SearchProductsAsAdmin(portfolioId: string)
    | ListProvisioningArtifacts(productId: Id)
    | ListConstraintsForPortfolio(productFilter: Option<Id>, portfolioId: string)
    | DeleteConstraint(constraintId: Id)
    | CreateConstraint(portfolioId: string, productId: Id, parameters: string)
    | CreateProvisioningArtifact(productId: Id, artifact: ArtifactSpec)
    | UpdateProvisioningArtifact(productId: Id, artifactId: Id, name: string, description: string, active: bool)
    | DeleteProvisioningArtifact(productId: Id, artifactId: Id)
    | CreateProduct(spec: ProductSpec)
    | AssociateProductWithPortfolio(productId: Id, portfolioId: string)
    | DisassociateProductFromPortfolio(productId: Id, portfolioId: string)
    | DeleteProduct(productId: Id)
    | AssociatePrincipalWithPortfolio(portfolioId: string, principalArn: string)
    | DisassociatePrincipalFromPortfolio(portfolioId: string, principalArn: string)
    | UploadTemplate(fileName: string, bucket: string, objectName: string)

  datatype Reply =
    | Failed(error: SdkError)
    | Done
    | ProductViews(views: seq<ProductView>)
    | ArtifactList(artifactIds: seq<Id>)
    | ConstraintList(constraintIds: seq<Id>)
    | Created(id: Id)

  /** How a step of a lambda ends: it returns, or it raises an exception. */
  datatype Outcome = Ok | Raised(error: Error)

  /** A step that makes one SDK call and re-raises its failure. */
  function Check(r: Reply): (o: Outcome)
    ensures o.Raised? <==> r.Failed?
  {
    if r.Failed? then Raised(Sdk(r.error)) else Ok
  }

  /** The ids a listing reply carries (none for any other reply). */
  function ListedIds(r: Reply): seq<Id> {
    if r.ArtifactList? then r.artifactIds else if r.ConstraintList? then r.constraintIds else []
  }

  function ListedViews(r: Reply): seq<ProductView> {
    if r.ProductViews? then r.views else []
  }

  function CreatedId(r: Reply): Id {
    if r.Created? then r.id else 0
  }

  datatype State = State(
    products: seq<Product>,
    constraints: seq<Constraint>,
    principals: set<Principal>,
    nextId: Id,
    pageSize: nat,
    faults: map<Call, SdkError>,
    log: seq<Call>)

  /**
   * The first page of a paged listing: a call without a page token gets at most
   * `size` entries, and the rest only behind the NextPageToken of its reply.
   */
  function FirstPage<T>(xs: seq<T>, size: nat): (page: seq<T>)
    ensures page <= xs && |page| <= size
    ensures |xs| <= size ==> page == xs
    ensures |xs| > size ==> |page| == size
  {
    if |xs| <= size then xs else xs[..size]
  }

  /** What search_products_as_admin returns for a portfolio: the first page of its products. */
  function ProductPage(s: State, portfolioId: string): seq<ProductView> {
    FirstPage(Views(s.products, portfolioId), s.pageSize)
  }

  /** What list_constraints_for_portfolio returns: the first page of the selected constraints. */
  function ConstraintPage(s: State, productFilter: Option<Id>, portfolioId: string): seq<Id> {
    FirstPage(ConstraintIds(s.constraints, productFilter, portfolioId), s.pageSize)
  }

  /** The products of a portfolio, in catalog order. */
  function Views(products: seq<Product>, portfolioId: string): seq<ProductView>
    decreases |products|
  {
    if products == [] then []
    else
      (if portfolioId in products[0].portfolios then [ProductView(products[0].id, products[0].name)] else [])
      + Views(products[1..], portfolioId)
  }

  /** The first product with this id. */
  function Find(products: seq<Product>, productId: Id): (r: Option<Product>)
    ensures r.Some? ==> r.value in products && r.value.id == productId
    decreases |products|
  {
    if products == [] then None
    else if products[0].id == productId then Some(products[0])
    else Find(products[1..], productId)
  }

  /** The versions of the product with this id, oldest first; none if there is no such product. */
  function ArtifactsOf(products: seq<Product>, productId: Id): seq<Id> {
    if Find(products, productId).Some? then Find(products, productId).value.artifacts else []
  }

  /** The constraint ids of a portfolio, optionally only those of one product, in order. */
  function ConstraintIds(constraints: seq<Constraint>, productFilter: Option<Id>, portfolioId: string): seq<Id>
    decreases |constraints|
  {
    if constraints == [] then []
    else
      (if Selected(constraints[0], productFilter, portfolioId) then [constraints[0].id] else [])
      + ConstraintIds(constraints[1..], productFilter, portfolioId)
  }

  /** Whether a constraint is of the portfolio and passes the product filter. */
  predicate Selected(c: Constraint, productFilter: Option<Id>, portfolioId: string) {
    c.portfolioId == portfolioId && (productFilter.None? || productFilter.value == c.productId)
  }

  /** The constraints without those with this id. */
  function WithoutConstraint(constraints: seq<Constraint>, constraintId: Id): seq<Constraint>
    decreases |constraints|
  {
    if constraints == [] then []
    else (if constraints[0].id == constraintId then [] else [constraints[0]]) + WithoutConstraint(constraints[1..], constraintId)
  }

  /** The ids without this one. */
  function WithoutId(ids: seq<Id>, id: Id): seq<Id>
    decreases |ids|
  {
    if ids == [] then [] else (if ids[0] == id then [] else [ids[0]]) + WithoutId(ids[1..], id)
  }

  /** A change to one product. */
  datatype Edit = AddArtifact(artifactId: Id) | DropArtifact(artifactId: Id) | Join(portfolioId: string) | Leave(portfolioId: string)

  function Apply(p: Product, e: Edit): (r: Product)
    ensures r.id == p.id && r.name == p.name
  {
    match e
    case AddArtifact(a) => p.(artifacts := p.artifacts + [a])
    case DropArtifact(a) => p.(artifacts := WithoutId(p.artifacts, a))
    case Join(pf) => p.(portfolios := p.portfolios + {pf})
    case Leave(pf) => p.(portfolios := p.portfolios - {pf})
  }

  /** The catalog with the edit applied to every product with this id. */
  function Modify(products: seq<Product>, productId: Id, e: Edit): (r: seq<Product>)
    ensures |r| == |products|
    decreases |products|
  {
    if products == [] then []
    else [if products[0].id == productId then Apply(products[0], e) else products[0]] + Modify(products[1..], productId, e)
  }

  /** The products without those with this id. */
  function WithoutProduct(products: seq<Product>, productId: Id): seq<Product>
    decreases |products|
  {
    if products == [] then []
    else (if products[0].id == productId then [] else [products[0]]) + WithoutProduct(products[1..], productId)
  }

  /** One SDK call against the fake: the new state and the reply. */
  function Exec(s: State, c: Call): (r: (State, Reply))
    ensures r.0.log == s.log + [c] && r.0.faults == s.faults && r.0.pageSize == s.pageSize
    ensures r.1.Failed? <==> c in s.faults
  {
    var s1 := s.(log := s.log + [c]);
    if c in s.faults then (s1, Failed(s.faults[c]))
    else match c
      case SearchProductsAsAdmin(portfolioId) =>
        (s1, ProductViews(ProductPage(s, portfolioId)))
      case ListProvisioningArtifacts(productId) =>
        (s1, ArtifactList(ArtifactsOf(s.products, productId)))
      case ListConstraintsForPortfolio(productFilter, portfolioId) =>
        (s1, ConstraintList(ConstraintPage(s, productFilter, portfolioId)))
      case DeleteConstraint(constraintId) =>
        (s1.(constraints := WithoutConstraint(s.constraints, constraintId)), Done)
      case CreateConstraint(portfolioId, productId, parameters) =>
        (s1.(constraints := s.constraints + [Constraint(s.nextId, productId, portfolioId, parameters)],
             nextId := s.nextId + 1), Created(s.nextId))
      case CreateProvisioningArtifact(productId, _) =>
        (s1.(products := Modify(s.products, productId, AddArtifact(s.nextId)),
             nextId := s.nextId + 1), Created(s.nextId))
      case UpdateProvisioningArtifact(_, _, _, _, _) =>
        (s1, Done)
      case DeleteProvisioningArtifact(productId, artifactId) =>
        (s1.(products := Modify(s.products, productId, DropArtifact(artifactId))), Done)
      case CreateProduct(spec) =>
        (s1.(products := s.products + [Product(s.nextId, spec.name, {}, [s.nextId + 1])],
             nextId := s.nextId + 2), Created(s.nextId))
      case AssociateProductWithPortfolio(productId, portfolioId) =>
        (s1.(products := Modify(s.products, productId, Join(portfolioId))), Done)
      case DisassociateProductFromPortfolio(productId, portfolioId) =>
        (s1.(products := Modify(s.products, productId, Leave(portfolioId))), Done)
      case DeleteProduct(productId) =>
        (s1.(products := WithoutProduct(s.products, productId)), Done)
      case AssociatePrincipalWithPortfolio(portfolioId, arn) =>
        (s1.(principals := s.principals + {Principal(portfolioId, arn)}), Done)
      case DisassociatePrincipalFromPortfolio(portfolioId, arn) =>
        (s1.(principals := s.principals - {Principal(portfolioId, arn)}), Done)
      case UploadTemplate(_, _, _) =>
        (s1, Done)
  }

  /** The listing holds the id of every constraint of the portfolio that passes the product filter. */
  lemma {:induction false} ConstraintIdsListsAll(constraints: seq<Constraint>, productFilter: Option<Id>, portfolioId: string)
    ensures forall c :: c in constraints && Selected(c, productFilter, portfolioId) ==> c.id in ConstraintIds(constraints, productFilter, portfolioId)
    decreases |constraints|
  {
    if constraints != [] {
      ConstraintIdsListsAll(constraints[1..], productFilter, portfolioId);
      assert forall c :: c in constraints ==> c == constraints[0] || c in constraints[1..];
    }
  }

  /** Every listed id is the id of a constraint of the portfolio that passes the product filter. */
  lemma {:induction false} ConstraintIdsSound(constraints: seq<Constraint>, productFilter: Option<Id>, portfolioId: string, x: Id)
    requires x in ConstraintIds(constraints, productFilter, portfolioId)
    ensures exists c :: c in constraints && c.id == x && Selected(c, productFilter, portfolioId)
    decreases |constraints|
  {
    var head := if Selected(constraints[0], productFilter, portfolioId) then [constraints[0].id] else [];
    if x in head {
      assert constraints[0] in constraints;
    } else {
      ConstraintIdsSound(constraints[1..], productFilter, portfolioId, x);
      var c :| c in constraints[1..] && c.id == x && Selected(c, productFilter, portfolioId);
      assert c in constraints;
    }
  }

  /** A portfolio without constraints lists none. */
  lemma {:induction false} ConstraintIdsEmpty(constraints: seq<Constraint>, portfolioId: string)
    requires forall c :: c in constraints ==> c.portfolioId != portfolioId
    ensures ConstraintIds(constraints, None, portfolioId) == []
    decreases |constraints|
  {
    if constraints != [] {
      assert constraints[0] in constraints;
      assert forall c :: c in constraints[1..] ==> c in constraints;
      ConstraintIdsEmpty(constraints[1..], portfolioId);
    }
  }

  /** Exactly the constraints with another id remain. */
  lemma {:induction false} WithoutConstraintMembers(constraints: seq<Constraint>, constraintId: Id)
    ensures forall c :: c in WithoutConstraint(constraints, constraintId) <==> c in constraints && c.id != constraintId
    decreases |constraints|
  {
    if constraints != [] {
      WithoutConstraintMembers(constraints[1..], constraintId);
      assert forall c :: c in constraints <==> c == constraints[0] || c in constraints[1..];
    }
  }

  /** Exactly the other ids remain. */
  lemma {:induction false} WithoutIdMembers(ids: seq<Id>, id: Id)
    ensures forall x :: x in WithoutId(ids, id) <==> x in ids && x != id
    decreases |ids|
  {
    if ids != [] {
      WithoutIdMembers(ids[1..], id);
      assert forall x :: x in ids <==> x == ids[0] || x in ids[1..];
    }
  }

  /** Exactly the products with another id remain. */
  lemma {:induction false} WithoutProductMembers(products: seq<Product>, productId: Id)
    ensures forall p :: p in WithoutProduct(products, productId) <==> p in products && p.id != productId
    decreases |products|
  {
    if products != [] {
      WithoutProductMembers(products[1..], productId);
      assert forall p :: p in products <==> p == products[0] || p in products[1..];
    }
  }

  /** Editing the products with one id leaves every other product where lookups find it. */
  lemma {:induction false} FindModify(products: seq<Product>, productId: Id, e: Edit, q: Id)
    ensures Find(Modify(products, productId, e), q) ==
      match Find(products, q)
      case None => None
      case Some(p) => Some(if q == productId then Apply(p, e) else p)
    decreases |products|
  {
    if products != [] {
      FindModify(products[1..], productId, e, q);
    }
  }

  lemma {:induction false} FindWithoutProduct(products: seq<Product>, productId: Id, q: Id)
    ensures Find(WithoutProduct(products, productId), q) == if q == productId then None else Find(products, q)
    decreases |products|
  {
    if products != [] {
      var rest := WithoutProduct(products[1..], productId);
      FindWithoutProduct(products[1..], productId, q);
      if products[0].id != productId {
        assert WithoutProduct(products, productId) == [products[0]] + rest;
        assert ([products[0]] + rest)[1..] == rest;
      } else {
        assert WithoutProduct(products, productId) == rest;
      }
    }
  }

  lemma {:induction false} FindAppend(products: seq<Product>, p: Product, q: Id)
    ensures Find(products + [p], q) ==
      if Find(products, q).Some? then Find(products, q) else if p.id == q then Some(p) else None
    decreases |products|
  {
    if products != [] {
      assert (products + [p])[1..] == products[1..] + [p];
      FindAppend(products[1..], p, q);
    }
  }

  /** No product has the id exactly when the lookup finds none. */
  lemma {:induction false} FindAbsent(products: seq<Product>, productId: Id)
    ensures Find(products, productId).None? <==> forall p :: p in products ==> p.id != productId
    decreases |products|
  {
    if products != [] {
      FindAbsent(products[1..], productId);
      assert forall p :: p in products ==> p == products[0] || p in products[1..];
    }
  }

  lemma FindAppended(products: seq<Product>, p: Product)
    requires Find(products, p.id).None?
    ensures Find(products + [p], p.id) == Some(p)
  {
    FindAppend(products, p, p.id);
  }

  lemma FindEdited(products: seq<Product>, p: Product, e: Edit)
    requires Find(products, p.id) == Some(p)
    ensures Find(Modify(products, p.id, e), p.id) == Some(Apply(p, e))
  {
    FindModify(products, p.id, e, p.id);
  }

  /** A product appended under a fresh id and then edited is found, edited, under that id. */
  lemma FindCreated(products: seq<Product>, p: Product, e: Edit)
    requires forall q :: q in products ==> q.id < p.id
    ensures Find(Modify(products + [p], p.id, e), p.id) == Some(Apply(p, e))
  {
    FindAbsent(products, p.id);
    FindAppended(products, p);
    FindEdited(products + [p], p, e);
  }

  /** search_products_as_admin lists every product of the portfolio, and only those. */
  lemma {:induction false} ViewsOfPortfolio(products: seq<Product>, portfolioId: string)
    ensures forall p :: p in products && portfolioId in p.portfolios ==> ProductView(p.id, p.name) in Views(products, portfolioId)
    ensures forall v :: v in Views(products, portfolioId) ==>
      exists p :: p in products && portfolioId in p.portfolios && v == ProductView(p.id, p.name)
    decreases |products|
  {
    if products != [] {
      ViewsOfPortfolio(products[1..], portfolioId);
      forall v | v in Views(products, portfolioId)
        ensures exists p :: p in products && portfolioId in p.portfolios && v == ProductView(p.id, p.name)
      {
        if v !in Views(products[1..], portfolioId) {
          assert products[0] in products;
        } else {
          var p :| p in products[1..] && portfolioId in p.portfolios && v == ProductView(p.id, p.name);
          assert p in products;
        }
      }
      forall p | p in products && portfolioId in p.portfolios
        ensures ProductView(p.id, p.name) in Views(products, portfolioId)
      {
        if p != products[0] {
          assert p in products[1..];
        }
      }
    }
  }

  /** The products a log deletes, in the order of their delete_product calls. */
  function Deletions(log: seq<Call>): seq<Id>
    decreases |log|
  {
    if log == [] then []
    else (if log[0].DeleteProduct? then [log[0].productId] else []) + Deletions(log[1..])
  }

  lemma {:induction false} DeletionsAppend(a: seq<Call>, b: seq<Call>)
    ensures Deletions(a + b) == Deletions(a) + Deletions(b)
    decreases |a|
  {
    if a == [] {
      assert a + b == b;
    } else {
      assert (a + b)[0] == a[0] && (a + b)[1..] == a[1..] + b;
      DeletionsAppend(a[1..], b);
    }
  }

  lemma {:induction false} DeletionsNone(log: seq<Call>)
    requires forall i :: 0 <= i < |log| ==> !log[i].DeleteProduct?
    ensures Deletions(log) == []
    decreases |log|
  {
    if log != [] {
      assert !log[0].DeleteProduct?;
      DeletionsNone(log[1..]);
    }
  }

  /** One call deletes its product when it is delete_product, and none otherwise. */
  lemma DeletionsOne(c: Call)
    ensures Deletions([c]) == if c.DeleteProduct? then [c.productId] else []
  {
    assert [c][1..] == [];
  }

  /** Calls that delete no product, then one delete_product call, add exactly that product to the deletions. */
  lemma DeletionsThenDelete(before: seq<Call>, calls: seq<Call>, productId: Id)
    requires forall i :: 0 <= i < |calls| ==> !calls[i].DeleteProduct?
    ensures Deletions(before + calls + [DeleteProduct(productId)]) == Deletions(before) + [productId]
  {
    DeletionsAppend(before + calls, [DeleteProduct(productId)]);
    DeletionsAppend(before, calls);
    DeletionsNone(calls);
    assert Deletions([DeleteProduct(productId)]) == [productId] by {
      assert [DeleteProduct(productId)][1..] == [];
    }
  }

  /** The ARN of an IAM role of an account, as the lambdas write it. */
  function RoleArn(accountId: string, role: string): string {
    "arn:aws:iam::" + accountId + ":role/" + role
  }

  /** Every product and version id in the catalog was handed out before `nextId`. */
  ghost predicate Fresh(s: State) {
    forall p :: p in s.products ==> p.id < s.nextId && forall a :: a in p.artifacts ==> a < s.nextId
  }

  /** The fake client: the catalog state as fields, updated in place by each call. */
  class Client {
    var products: seq<Product>
    var constraints: seq<Constraint>
    var principals: set<Principal>
    var nextId: Id
    const pageSize: nat
    const faults: map<Call, SdkError>
    var log: seq<Call>

    function Snapshot(): State
      reads this
    {
      State(products, constraints, principals, nextId, pageSize, faults, log)
    }

    constructor (initial: State)
      ensures Snapshot() == initial
    {
      products, constraints, principals := initial.products, initial.constraints, initial.principals;
      nextId, pageSize, faults, log := initial.nextId, initial.pageSize, initial.faults, initial.log;
    }

    /** Issue one SDK call. */
    method Invoke(c: Call) returns (reply: Reply)
      modifies this
      ensures (Snapshot(), reply) == Exec(old(Snapshot()), c)
    {
      var (s, r) := Exec(Snapshot(), c);
      products, constraints, principals, nextId, log := s.products, s.constraints, s.principals, s.nextId, s.log;
      reply := r;
    }
  }
}
