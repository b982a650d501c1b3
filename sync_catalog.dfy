/**
 * The sync_catalog lambda (service_catalog_janitor): it reconciles the Service
 * Catalog portfolio with the templates a commit added, modified or deleted.
 * Each step is a pure function from the catalog state to the new state and how
 * the step ended (`...Run`), and a method that issues the same calls through the
 * fake client and is proved to reach exactly that state and ending.
 */
module SyncCatalog {
  import opened Wrappers
  import opened Strings
  import opened Normalizer
  import opened Paths
  import opened Catalog
  import opened ProductListing
  import GitMetadata

  /** The environment variables PATH, BUCKET, S3_PATH, LOCAL_ROLE_NAME_SC and SANDBOX_ACCOUNT_ID. */
  datatype Env = Env(path: string, bucket: string, s3Path: string, localRoleName: string, sandboxAccountId: string)

  /** The options of a config.ini section that the lambda reads. */
  datatype Setting =
    | Name | Owner | Description | SupportDescription | SupportEmail | SupportUrl
    | ProductType | Key1 | Value1 | Version | DiffDescription | TemplateUrl

  /** The option's name in config.ini. */
  function SettingName(k: Setting): string {
    match k
    case Name => "Name"
    case Owner => "Owner"
    case Description => "Description"
    case SupportDescription => "SupportDescription"
    case SupportEmail => "SupportEmail"
    case SupportUrl => "SupportUrl"
    case ProductType => "ProductType"
    case Key1 => "Key_1"
    case Value1 => "Value_1"
    case Version => "Version"
    case DiffDescription => "Diff_Description"
    case TemplateUrl => "TemplateURL"
  }

  /** The parsed config.ini: section name to option to value. */
  type Config = map<string, map<Setting, string>>

  /** The roles of this account granted access to the portfolio. */
  const IamRoles: seq<string> := ["CrossAccountAdmin"]

  /** The launch constraint's parameters, the JSON object {"LocalRoleName": role}. */
  function LaunchParameters(roleName: string): string {
    "{\"LocalRoleName\": \"" + roleName + "\"}"
  }

  /** Reads the options in turn; the first missing one raises KeyError. */
  function LookupAll(options: map<Setting, string>, keys: seq<Setting>): (r: Result<seq<string>, Error>)
    ensures r.Success? ==> |r.value| == |keys|
    decreases |keys|
  {
    if keys == [] then Success([])
    else if keys[0] !in options then Failure(KeyError(SettingName(keys[0])))
    else match LookupAll(options, keys[1..])
      case Failure(e) => Failure(e)
      case Success(vs) => Success([options[keys[0]]] + vs)
  }

  /** config[section][key] for each key in turn: a missing section raises KeyError first. */
  function Lookup(config: Config, section: string, keys: seq<Setting>): (r: Result<seq<string>, Error>)
    ensures r.Success? ==> |r.value| == |keys|
  {
    if section !in config then Failure(KeyError(section)) else LookupAll(config[section], keys)
  }

  /**
   * The lookup succeeds exactly when every option is present, and then yields their
   * values in order; otherwise it raises KeyError for the first missing option.
   */
  lemma {:induction false} LookupAllSpec(options: map<Setting, string>, keys: seq<Setting>)
    ensures var r := LookupAll(options, keys);
      && (r.Success? <==> forall k :: k in keys ==> k in options)
      && (r.Success? ==> forall i :: 0 <= i < |keys| ==> r.value[i] == options[keys[i]])
      && (r.Failure? ==> exists i :: 0 <= i < |keys| && r.error == KeyError(SettingName(keys[i])) && keys[i] !in options
                                     && forall k :: 0 <= k < i ==> keys[k] in options)
    decreases |keys|
  {
    if keys != [] {
      LookupAllSpec(options, keys[1..]);
      var r := LookupAll(options, keys);
      if keys[0] in options {
        if r.Failure? {
          var i :| 0 <= i < |keys[1..]| && r.error == KeyError(SettingName(keys[1..][i])) && keys[1..][i] !in options
                   && forall k :: 0 <= k < i ==> keys[1..][k] in options;
          assert r.error == KeyError(SettingName(keys[i + 1])) && forall k :: 0 <= k < i + 1 ==> keys[k] in options;
        }
        assert forall k :: k in keys ==> k == keys[0] || k in keys[1..];
      } else {
        assert r.error == KeyError(SettingName(keys[0]));
      }
    }
  }

  /** The options create_product reads, in the order it reads them. */
  const ProductOptions: seq<Setting> := [Name, Owner, Description, SupportDescription, SupportEmail,
    SupportUrl, ProductType, Key1, Value1, Version, DiffDescription, TemplateUrl, ProductType]

  /** The options create_provisioning_artifact reads. */
  const ArtifactOptions: seq<Setting> := [Name, DiffDescription, TemplateUrl, ProductType]

  /** The options update_provisioning_artifact reads. */
  const ActivationOptions: seq<Setting> := [Version, DiffDescription]

  function ProductRequest(config: Config, fileName: string): Result<ProductSpec, Error> {
    match Lookup(config, fileName, ProductOptions)
    case Failure(e) => Failure(e)
    case Success(v) =>
      Success(ProductSpec(v[0], v[1], v[2], v[3], v[4], v[5], v[6], v[7], v[8], ArtifactSpec(v[9], v[10], v[11], v[12])))
  }

  function ArtifactRequest(config: Config, fileName: string): Result<ArtifactSpec, Error> {
    match Lookup(config, fileName, ArtifactOptions)
    case Failure(e) => Failure(e)
    case Success(v) => Success(ArtifactSpec(v[0], v[1], v[2], v[3]))
  }

  /** The new version's name and description. */
  function ActivationRequest(config: Config, fileName: string): Result<(string, string), Error> {
    match Lookup(config, fileName, ActivationOptions)
    case Failure(e) => Failure(e)
    case Success(v) => Success((v[0], v[1]))
  }

  /** create_product's arguments, read from the template's section: every option it reads, each into its own field. */
  lemma ProductRequestReads(config: Config, fileName: string)
    requires ProductRequest(config, fileName).Success?
    ensures fileName in config
    ensures var options := config[fileName];
      && (forall k :: k in ProductOptions ==> k in options)
      && ProductRequest(config, fileName).value == ProductSpec(
           options[Name], options[Owner], options[Description], options[SupportDescription],
           options[SupportEmail], options[SupportUrl], options[ProductType], options[Key1], options[Value1],
           ArtifactSpec(options[Version], options[DiffDescription], options[TemplateUrl], options[ProductType]))
  {
    LookupAllSpec(config[fileName], ProductOptions);
  }

  /**
   * create_product's arguments are read before any call: the read fails exactly when the
   * section or one of its options is missing, and then the product is not created, no
   * call is made and a KeyError is raised, naming the section when it is the section
   * that is missing.
   */
  lemma CreateNewNeedsConfig(s: State, config: Config, fileName: string, portfolioId: string, env: Env)
    ensures var (s', o) := CreateNewRun(s, config, fileName, portfolioId, env);
      && (ProductRequest(config, fileName).Failure? <==>
            fileName !in config || exists k :: k in ProductOptions && k !in config[fileName])
      && (ProductRequest(config, fileName).Failure? ==> s' == s && o.Raised? && o.error.KeyError?)
      && (fileName !in config ==> o == Raised(KeyError(fileName)))
  {
    if fileName in config {
      LookupAllSpec(config[fileName], ProductOptions);
    }
  }

  /** create_provisioning_artifact's parameters, read from the template's section. */
  lemma ArtifactRequestReads(config: Config, fileName: string)
    requires ArtifactRequest(config, fileName).Success?
    ensures fileName in config
    ensures var options := config[fileName];
      && Name in options && DiffDescription in options && TemplateUrl in options && ProductType in options
      && ArtifactRequest(config, fileName).value == ArtifactSpec(options[Name], options[DiffDescription], options[TemplateUrl], options[ProductType])
  {
    LookupAllSpec(config[fileName], ArtifactOptions);
  }

  /** update_provisioning_artifact's name and description, read from the template's section. */
  lemma ActivationRequestReads(config: Config, fileName: string)
    requires ActivationRequest(config, fileName).Success?
    ensures fileName in config && Version in config[fileName] && DiffDescription in config[fileName]
    ensures ActivationRequest(config, fileName).value == (config[fileName][Version], config[fileName][DiffDescription])
  {
    LookupAllSpec(config[fileName], ActivationOptions);
  }

  /** list.index: the first position holding x. */
  function IndexOf(xs: seq<string>, x: string): (i: nat)
    requires x in xs
    ensures i < |xs| && xs[i] == x
    ensures forall k :: 0 <= k < i ==> xs[k] != x
  {
    if xs[0] == x then 0 else 1 + IndexOf(xs[1..], x)
  }

  /** The templates update_portfolio visits: the added files, then the modified ones. */
  function Modifications(added: string, modified: string): seq<string> {
    Split(added, ',') + Split(modified, ',')
  }

  /*** delete_constraint ***/

  /** List the product's constraints in the portfolio and delete the first one listed, if any. */
  function DeleteConstraintRun(s: State, productId: Id, portfolioId: string): (r: (State, Outcome))
    ensures s.log <= r.0.log && r.0.faults == s.faults
  {
    var (s1, listed) := Exec(s, ListConstraintsForPortfolio(Some(productId), portfolioId));
    if listed.Failed? then (s1, Raised(Sdk(listed.error)))
    else if ListedIds(listed) == [] then (s1, Ok)
    else
      var (s2, deleted) := Exec(s1, DeleteConstraint(ListedIds(listed)[0]));
      (s2, Check(deleted))
  }

  method DeleteProductConstraint(sc: Client, productId: Id, portfolioId: string) returns (o: Outcome)
    modifies sc
    ensures (sc.Snapshot(), o) == DeleteConstraintRun(old(sc.Snapshot()), productId, portfolioId)
  {
    var listed := sc.Invoke(ListConstraintsForPortfolio(Some(productId), portfolioId));
    if listed.Failed? {
      return Raised(Sdk(listed.error));
    }
    if ListedIds(listed) == [] {
      return Ok;
    }
    var deleted := sc.Invoke(DeleteConstraint(ListedIds(listed)[0]));
    o := Check(deleted);
  }

  /*** create_constraint ***/

  function CreateConstraintRun(s: State, portfolioId: string, productId: Id, env: Env): (r: (State, Outcome))
    ensures s.log <= r.0.log && r.0.faults == s.faults
  {
    var (s1, created) := Exec(s, CreateConstraint(portfolioId, productId, LaunchParameters(env.localRoleName)));
    (s1, Check(created))
  }

  method CreateLaunchConstraint(sc: Client, portfolioId: string, productId: Id, env: Env) returns (o: Outcome)
    modifies sc
    ensures (sc.Snapshot(), o) == CreateConstraintRun(old(sc.Snapshot()), portfolioId, productId, env)
  {
    var created := sc.Invoke(CreateConstraint(portfolioId, productId, LaunchParameters(env.localRoleName)));
    o := Check(created);
  }

  /*** copy_tested_template ***/

  /** Upload a template to the template store; a failed upload is only reported. */
  method CopyTestedTemplate(sc: Client, fileName: string, bucket: string, objectName: string) returns (copied: bool)
    modifies sc
    ensures sc.Snapshot() == Exec(old(sc.Snapshot()), UploadTemplate(fileName, bucket, objectName)).0
    ensures copied <==> UploadTemplate(fileName, bucket, objectName) !in old(sc.Snapshot()).faults
  {
    var reply := sc.Invoke(UploadTemplate(fileName, bucket, objectName));
    copied := !reply.Failed?;
  }

  /*** update_portfolio ***/

  /**
   * A new version of an existing product: list its versions, replace its launch
   * constraint, then publish the new version (`NewVersionRun`).
   */
  function UpdateExistingRun(s: State, config: Config, fileName: string, productId: Id, portfolioId: string, env: Env): (r: (State, Outcome))
    ensures s.log <= r.0.log && r.0.faults == s.faults
  {
    var (s1, listed) := Exec(s, ListProvisioningArtifacts(productId));
    if listed.Failed? then (s1, Raised(Sdk(listed.error))) else
    var (s2, o2) := ReplaceConstraintRun(s1, productId, portfolioId, env);
    if o2.Raised? then (s2, o2)
    else NewVersionRun(s2, ArtifactRequest(config, fileName), ActivationRequest(config, fileName), productId, ListedIds(listed))
  }

  /** delete_constraint, then create_constraint. */
  function ReplaceConstraintRun(s: State, productId: Id, portfolioId: string, env: Env): (r: (State, Outcome))
    ensures s.log <= r.0.log && r.0.faults == s.faults
  {
    var (s1, o1) := DeleteConstraintRun(s, productId, portfolioId);
    if o1.Raised? then (s1, o1) else CreateConstraintRun(s1, portfolioId, productId, env)
  }

  /**
   * Create the new version, activate it, then delete the first of the versions listed
   * before. The version's parameters and its name and description are read from the
   * config section before the creation and before the activation respectively; either
   * read may have raised KeyError.
   */
  function NewVersionRun(s: State, artifactRequest: Result<ArtifactSpec, Error>, activationRequest: Result<(string, string), Error>,
                         productId: Id, versions: seq<Id>): (r: (State, Outcome))
    ensures s.log <= r.0.log && r.0.faults == s.faults
  {
    match artifactRequest
    case Failure(e) => (s, Raised(e))
    case Success(artifact) =>
      var (s1, created) := Exec(s, CreateProvisioningArtifact(productId, artifact));
      if created.Failed? then (s1, Raised(Sdk(created.error))) else
      match activationRequest
      case Failure(e) => (s1, Raised(e))
      case Success(activation) =>
        var (s2, updated) := Exec(s1, UpdateProvisioningArtifact(productId, CreatedId(created), activation.0, activation.1, true));
        if updated.Failed? then (s2, Raised(Sdk(updated.error)))
        else if versions == [] then (s2, Raised(IndexError))
        else
          var (s3, deleted) := Exec(s2, DeleteProvisioningArtifact(productId, versions[0]));
          (s3, Check(deleted))
  }

  method UpdateExisting(sc: Client, config: Config, fileName: string, productId: Id, portfolioId: string, env: Env) returns (o: Outcome)
    modifies sc
    ensures (sc.Snapshot(), o) == UpdateExistingRun(old(sc.Snapshot()), config, fileName, productId, portfolioId, env)
  {
    var listed := sc.Invoke(ListProvisioningArtifacts(productId));
    if listed.Failed? {
      return Raised(Sdk(listed.error));
    }
    o := ReplaceConstraint(sc, productId, portfolioId, env);
    if o.Raised? {
      return;
    }
    o := NewVersion(sc, config, fileName, productId, ListedIds(listed));
  }

  method ReplaceConstraint(sc: Client, productId: Id, portfolioId: string, env: Env) returns (o: Outcome)
    modifies sc
    ensures (sc.Snapshot(), o) == ReplaceConstraintRun(old(sc.Snapshot()), productId, portfolioId, env)
  {
    o := DeleteProductConstraint(sc, productId, portfolioId);
    if o.Raised? {
      return;
    }
    o := CreateLaunchConstraint(sc, portfolioId, productId, env);
  }

  method NewVersion(sc: Client, config: Config, fileName: string, productId: Id, versions: seq<Id>) returns (o: Outcome)
    modifies sc
    ensures (sc.Snapshot(), o) == NewVersionRun(old(sc.Snapshot()), ArtifactRequest(config, fileName), ActivationRequest(config, fileName),
                                                productId, versions)
  {
    var artifact := ArtifactRequest(config, fileName);
    if artifact.Failure? {
      return Raised(artifact.error);
    }
    var created := sc.Invoke(CreateProvisioningArtifact(productId, artifact.value));
    if created.Failed? {
      return Raised(Sdk(created.error));
    }
    var activation := ActivationRequest(config, fileName);
    if activation.Failure? {
      return Raised(activation.error);
    }
    var updated := sc.Invoke(UpdateProvisioningArtifact(productId, CreatedId(created), activation.value.0, activation.value.1, true));
    if updated.Failed? {
      return Raised(Sdk(updated.error));
    }
    if versions == [] {
      return Raised(IndexError);
    }
    var deleted := sc.Invoke(DeleteProvisioningArtifact(productId, versions[0]));
    o := Check(deleted);
  }

  /** A new product: read its config section, then create it (`CreateProductRun`). */
  function CreateNewRun(s: State, config: Config, fileName: string, portfolioId: string, env: Env): (r: (State, Outcome))
    ensures s.log <= r.0.log && r.0.faults == s.faults
  {
    match ProductRequest(config, fileName)
    case Failure(e) => (s, Raised(e))
    case Success(spec) => CreateProductRun(s, spec, portfolioId, env)
  }

  /** Create the product with its first version, add it to the portfolio, give it a launch constraint. */
  function CreateProductRun(s: State, spec: ProductSpec, portfolioId: string, env: Env): (r: (State, Outcome))
    ensures s.log <= r.0.log && r.0.faults == s.faults
  {
    var (s1, created) := Exec(s, CreateProduct(spec));
    if created.Failed? then (s1, Raised(Sdk(created.error))) else
    var (s2, associated) := Exec(s1, AssociateProductWithPortfolio(CreatedId(created), portfolioId));
    if associated.Failed? then (s2, Raised(Sdk(associated.error)))
    else CreateConstraintRun(s2, portfolioId, CreatedId(created), env)
  }

  method CreateNew(sc: Client, config: Config, fileName: string, portfolioId: string, env: Env) returns (o: Outcome)
    modifies sc
    ensures (sc.Snapshot(), o) == CreateNewRun(old(sc.Snapshot()), config, fileName, portfolioId, env)
  {
    var spec := ProductRequest(config, fileName);
    if spec.Failure? {
      return Raised(spec.error);
    }
    var created := sc.Invoke(CreateProduct(spec.value));
    if created.Failed? {
      return Raised(Sdk(created.error));
    }
    var associated := sc.Invoke(AssociateProductWithPortfolio(CreatedId(created), portfolioId));
    if associated.Failed? {
      return Raised(Sdk(associated.error));
    }
    o := CreateLaunchConstraint(sc, portfolioId, CreatedId(created), env);
  }

  /**
   * One changed file: ignored unless its path contains PATH; otherwise copied to the
   * template store under its third path component, then matched by its formatted stem
   * against the formatted product names.
   */
  function UpdateTemplateRun(s: State, config: Config, template: string, portfolioId: string,
                             ids: seq<Id>, names: seq<string>, env: Env): (r: (State, Outcome))
    requires |ids| == |names|
    ensures s.log <= r.0.log && r.0.faults == s.faults
  {
    if !Contains(template, env.path) then (s, Ok)
    else
      var parts := Split(template, '/');
      if |parts| < 3 then (s, Raised(IndexError))
      else
        var (s1, _) := Exec(s, UploadTemplate("/tmp/" + template, env.bucket, env.s3Path + parts[2]));
        var (_, fileName, key) := FormatStringAndFilenames(template);
        if key in names then UpdateExistingRun(s1, config, fileName, ids[IndexOf(names, key)], portfolioId, env)
        else CreateNewRun(s1, config, fileName, portfolioId, env)
  }

  method UpdateTemplate(sc: Client, config: Config, template: string, portfolioId: string,
                        ids: seq<Id>, names: seq<string>, env: Env) returns (o: Outcome)
    requires |ids| == |names|
    modifies sc
    ensures (sc.Snapshot(), o) == UpdateTemplateRun(old(sc.Snapshot()), config, template, portfolioId, ids, names, env)
  {
    if !Contains(template, env.path) {
      return Ok;
    }
    var parts := Split(template, '/');
    if |parts| < 3 {
      return Raised(IndexError);
    }
    var _ := CopyTestedTemplate(sc, "/tmp/" + template, env.bucket, env.s3Path + parts[2]);
    var (_, fileName, key) := FormatStringAndFilenames(template);
    if key in names {
      o := UpdateExisting(sc, config, fileName, ids[IndexOf(names, key)], portfolioId, env);
    } else {
      o := CreateNew(sc, config, fileName, portfolioId, env);
    }
  }

  /** Every template in turn, stopping at the first one that raises. */
  function UpdateAllRun(s: State, config: Config, templates: seq<string>, portfolioId: string,
                        ids: seq<Id>, names: seq<string>, env: Env): (r: (State, Outcome))
    requires |ids| == |names|
    ensures s.log <= r.0.log && r.0.faults == s.faults
    decreases |templates|
  {
    if templates == [] then (s, Ok)
    else
      var (s1, o1) := UpdateTemplateRun(s, config, templates[0], portfolioId, ids, names, env);
      if o1.Raised? then (s1, o1) else UpdateAllRun(s1, config, templates[1..], portfolioId, ids, names, env)
  }

  method UpdatePortfolio(sc: Client, config: Config, added: string, portfolioId: string, modified: string,
                         productIds: seq<Id>, productNames: seq<string>, env: Env) returns (o: Outcome)
    requires |productIds| == |productNames|
    modifies sc
    ensures (sc.Snapshot(), o) == UpdateAllRun(old(sc.Snapshot()), config, Modifications(added, modified), portfolioId, productIds, productNames, env)
  {
    var modifications := Split(added, ',') + Split(modified, ',');
    for i := 0 to |modifications|
      invariant UpdateAllRun(sc.Snapshot(), config, modifications[i..], portfolioId, productIds, productNames, env)
             == UpdateAllRun(old(sc.Snapshot()), config, modifications, portfolioId, productIds, productNames, env)
    {
      assert modifications[i..][0] == modifications[i] && modifications[i..][1..] == modifications[i + 1..];
      o := UpdateTemplate(sc, config, modifications[i], portfolioId, productIds, productNames, env);
      if o.Raised? {
        return;
      }
    }
    assert modifications[|modifications|..] == [];
    o := Ok;
  }

  /*** delete_product ***/

  /**
   * From position j on: each formatted product name found among the formatted deleted
   * paths loses its launch constraint, then the product (at its name's first position) is deleted.
   */
  function DeleteProductsRun(s: State, keys: seq<string>, deletions: seq<string>, ids: seq<Id>,
                             portfolioId: string, j: nat): (r: (State, Outcome))
    requires |ids| == |keys| && j <= |keys|
    ensures s.log <= r.0.log && r.0.faults == s.faults
    decreases |keys| - j
  {
    if j == |keys| then (s, Ok)
    else if keys[j] !in deletions then DeleteProductsRun(s, keys, deletions, ids, portfolioId, j + 1)
    else
      var productId := ids[IndexOf(keys, keys[j])];
      var (s1, o1) := DeleteConstraintRun(s, productId, portfolioId);
      if o1.Raised? then (s1, o1) else
      var (s2, deleted) := Exec(s1, DeleteProduct(productId));
      if deleted.Failed? then (s2, Raised(Sdk(deleted.error)))
      else DeleteProductsRun(s2, keys, deletions, ids, portfolioId, j + 1)
  }

  method DeleteProducts(sc: Client, productIds: seq<Id>, productNames: seq<string>, deletedFiles: seq<string>,
                        portfolioId: string) returns (o: Outcome)
    requires |productIds| == |productNames|
    modifies sc
    ensures (sc.Snapshot(), o) == DeleteProductsRun(old(sc.Snapshot()), Keys(productNames), Keys(deletedFiles), productIds, portfolioId, 0)
  {
    var products := FormatAll(productNames);
    var deletions := FormatAll(deletedFiles);
    for j := 0 to |products|
      invariant DeleteProductsRun(sc.Snapshot(), products, deletions, productIds, portfolioId, j)
             == DeleteProductsRun(old(sc.Snapshot()), products, deletions, productIds, portfolioId, 0)
    {
      ghost var before := sc.Snapshot();
      if products[j] in deletions {
        var index := IndexOf(products, products[j]);
        o := DeleteProductConstraint(sc, productIds[index], portfolioId);
        if o.Raised? {
          return;
        }
        var deleted := sc.Invoke(DeleteProduct(productIds[index]));
        if deleted.Failed? {
          return Raised(Sdk(deleted.error));
        }
        assert DeleteProductsRun(before, products, deletions, productIds, portfolioId, j)
            == DeleteProductsRun(sc.Snapshot(), products, deletions, productIds, portfolioId, j + 1);
      }
    }
    o := Ok;
  }

  /*** associate_principal_within_this_account ***/

  /** Grant each role access in turn; a ClientError is swallowed, any other error raises. */
  function AssociatePrincipalsRun(s: State, roles: seq<string>, portfolioId: string, accountId: string): (r: (State, Outcome))
    ensures s.log <= r.0.log && r.0.faults == s.faults
    decreases |roles|
  {
    if roles == [] then (s, Ok)
    else
      var (s1, reply) := Exec(s, AssociatePrincipalWithPortfolio(portfolioId, RoleArn(accountId, roles[0])));
      if reply.Failed? && !reply.error.ClientError? then (s1, Raised(Sdk(reply.error)))
      else AssociatePrincipalsRun(s1, roles[1..], portfolioId, accountId)
  }

  method AssociatePrincipals(sc: Client, roles: seq<string>, portfolioId: string, accountId: string) returns (o: Outcome)
    modifies sc
    ensures (sc.Snapshot(), o) == AssociatePrincipalsRun(old(sc.Snapshot()), roles, portfolioId, accountId)
  {
    for i := 0 to |roles|
      invariant AssociatePrincipalsRun(sc.Snapshot(), roles[i..], portfolioId, accountId)
             == AssociatePrincipalsRun(old(sc.Snapshot()), roles, portfolioId, accountId)
    {
      assert roles[i..][0] == roles[i] && roles[i..][1..] == roles[i + 1..];
      var reply := sc.Invoke(AssociatePrincipalWithPortfolio(portfolioId, RoleArn(accountId, roles[i])));
      if reply.Failed? && !reply.error.ClientError? {
        return Raised(Sdk(reply.error));
      }
    }
    assert roles[|roles|..] == [];
    o := Ok;
  }

  /*** service_catalog_janitor ***/

  /** The janitor's steps that report a failure to the pipeline. */
  datatype Step = Download | Update | Delete | Associate

  /** How the pipeline job ends. */
  datatype JobReport =
    | JobSucceeded(newProducts: string, updatedProducts: string)  // put_job_success with these output variables
    | JobFailed(step: Step, error: Error)                          // put_job_failure, then the error is raised
    | Crashed(error: Error)                                        // the error is raised without a job report

  /**
   * The whole maintenance run, given the outcome of downloading config.ini and the
   * job's portfolio id and comma-separated added, modified and deleted paths.
   */
  function JanitorRun(s: State, config: Result<Config, Error>, portfolioId: string,
                      added: string, modified: string, deleted: string, env: Env): (r: (State, JobReport))
    ensures s.log <= r.0.log && r.0.faults == s.faults
  {
    if config.Failure? then (s, JobFailed(Download, config.error)) else
    var (s1, listing) := ListProductsRun(s, portfolioId);
    if listing.Failure? then (s1, Crashed(listing.error)) else
    var (ids, names) := listing.value;
    var (s2, o2) := UpdateAllRun(s1, config.value, Modifications(added, modified), portfolioId, ids, names, env);
    if o2.Raised? then (s2, JobFailed(Update, o2.error)) else
    var (s3, o3) :=
      if |Split(deleted, ',')| != 0 then DeleteProductsRun(s2, Keys(names), Keys(Split(deleted, ',')), ids, portfolioId, 0)
      else (s2, Ok);
    if o3.Raised? then (s3, JobFailed(Delete, o3.error)) else
    var (s4, o4) := AssociatePrincipalsRun(s3, IamRoles, portfolioId, env.sandboxAccountId);
    if o4.Raised? then (s4, JobFailed(Associate, o4.error))
    else (s4, JobSucceeded(added, modified))
  }

  method ServiceCatalogJanitor(sc: Client, config: Result<Config, Error>, portfolioId: string,
                               added: string, modified: string, deleted: string, env: Env) returns (report: JobReport)
    modifies sc
    ensures (sc.Snapshot(), report) == JanitorRun(old(sc.Snapshot()), config, portfolioId, added, modified, deleted, env)
  {
    if config.Failure? {
      return JobFailed(Download, config.error);
    }
    var listing := ListProductsForPortfolio(sc, portfolioId);
    if listing.Failure? {
      return Crashed(listing.error);
    }
    var (ids, names) := listing.value;
    var o := UpdatePortfolio(sc, config.value, added, portfolioId, modified, ids, names, env);
    if o.Raised? {
      return JobFailed(Update, o.error);
    }
    if |Split(deleted, ',')| != 0 {
      o := DeleteProducts(sc, ids, names, Split(deleted, ','), portfolioId);
      if o.Raised? {
        return JobFailed(Delete, o.error);
      }
    }
    o := AssociatePrincipals(sc, IamRoles, portfolioId, env.sandboxAccountId);
    if o.Raised? {
      return JobFailed(Associate, o.error);
    }
    report := JobSucceeded(added, modified);
  }

  /*** Properties ***/

  /**
   * delete_constraint lists the product's constraints in the portfolio and deletes at most
   * one, the first listed; it changes no product, and it never raises IndexError, so the
   * `except IndexError` around it in update_portfolio can never run.
   */
  lemma DeleteConstraintEffect(s: State, productId: Id, portfolioId: string)
    ensures var (s', o) := DeleteConstraintRun(s, productId, portfolioId);
      var listed := ConstraintPage(s, Some(productId), portfolioId);
      && (o.Raised? ==> o.error.Sdk?)
      && s'.products == s.products && s'.principals == s.principals && s'.nextId == s.nextId
      && (s'.log == s.log + [ListConstraintsForPortfolio(Some(productId), portfolioId)]
          || (listed != [] && s'.log == s.log + [ListConstraintsForPortfolio(Some(productId), portfolioId), DeleteConstraint(listed[0])]))
      && (s.faults == map[] ==>
            && o == Ok
            && s'.log == s.log + [ListConstraintsForPortfolio(Some(productId), portfolioId)]
                 + (if listed == [] then [] else [DeleteConstraint(listed[0])])
            && (forall c :: c in s'.constraints <==> c in s.constraints && (listed == [] || c.id != listed[0])))
  {
    var listed := ConstraintPage(s, Some(productId), portfolioId);
    if listed != [] {
      WithoutConstraintMembers(s.constraints, listed[0]);
    }
  }

  /**
   * Updating an existing product lists its versions, replaces its launch constraint, and
   * then publishes a new version against the versions it listed; the listing and the
   * constraint calls leave the products as they were.
   */
  lemma UpdateExistingSteps(s: State, config: Config, fileName: string, productId: Id, portfolioId: string, env: Env)
    requires s.faults == map[]
    ensures var s1 := Exec(s, ListProvisioningArtifacts(productId)).0;
      var s2 := ReplaceConstraintRun(s1, productId, portfolioId, env).0;
      && s1 == s.(log := s.log + [ListProvisioningArtifacts(productId)])
      && s2.products == s.products && s2.nextId == s.nextId + 1 && s2.faults == map[]
      && UpdateExistingRun(s, config, fileName, productId, portfolioId, env)
         == NewVersionRun(s2, ArtifactRequest(config, fileName), ActivationRequest(config, fileName), productId, ArtifactsOf(s.products, productId))
  {
    var s1 := Exec(s, ListProvisioningArtifacts(productId)).0;
    ReplaceConstraintSequence(s1, productId, portfolioId, env);
  }

  /**
   * With no failing call and a complete config section, updating an existing product with
   * versions issues, in this order: the version listing, the constraint listing, the
   * deletion of the first listed constraint (if any), the new launch constraint, the new
   * version, its activation, and the deletion of the oldest listed version.
   */
  lemma {:induction false} UpdateExistingLog(s: State, config: Config, fileName: string, productId: Id, portfolioId: string,
                                             env: Env, artifact: ArtifactSpec, version: string, description: string)
    requires s.faults == map[] && Fresh(s)
    requires ArtifactRequest(config, fileName) == Success(artifact)
    requires ActivationRequest(config, fileName) == Success((version, description))
    requires ArtifactsOf(s.products, productId) != []
    ensures var (s', o) := UpdateExistingRun(s, config, fileName, productId, portfolioId, env);
      var versions := ArtifactsOf(s.products, productId);
      var listed := ConstraintPage(s, Some(productId), portfolioId);
      s'.log == s.log
           + [ListProvisioningArtifacts(productId), ListConstraintsForPortfolio(Some(productId), portfolioId)]
           + (if listed == [] then [] else [DeleteConstraint(listed[0])])
           + [CreateConstraint(portfolioId, productId, LaunchParameters(env.localRoleName)),
              CreateProvisioningArtifact(productId, artifact),
              UpdateProvisioningArtifact(productId, s.nextId + 1, version, description, true),
              DeleteProvisioningArtifact(productId, versions[0])]
  {
    var versions := ArtifactsOf(s.products, productId);
    var s1 := Exec(s, ListProvisioningArtifacts(productId)).0;
    var listed := ConstraintPage(s, Some(productId), portfolioId);
    var deletion := if listed == [] then [] else [DeleteConstraint(listed[0])];
    var s2 := ReplaceConstraintRun(s1, productId, portfolioId, env).0;
    var tail := [CreateProvisioningArtifact(productId, artifact),
                 UpdateProvisioningArtifact(productId, s.nextId + 1, version, description, true),
                 DeleteProvisioningArtifact(productId, versions[0])];
    assert UpdateExistingRun(s, config, fileName, productId, portfolioId, env).0.log == s2.log + tail by {
      UpdateExistingTail(s, config, fileName, productId, portfolioId, env, artifact, version, description);
    }
    assert s2.log == s.log + [ListProvisioningArtifacts(productId)] + [ListConstraintsForPortfolio(Some(productId), portfolioId)]
                     + deletion + [CreateConstraint(portfolioId, productId, LaunchParameters(env.localRoleName))] by {
      ReplaceConstraintSequence(s1, productId, portfolioId, env);
    }
    LogShape(s.log, ListProvisioningArtifacts(productId), ListConstraintsForPortfolio(Some(productId), portfolioId),
             deletion, CreateConstraint(portfolioId, productId, LaunchParameters(env.localRoleName)), tail[0], tail[1], tail[2]);
  }

  /** After the constraint replacement, the update path makes exactly the three version calls. */
  lemma UpdateExistingTail(s: State, config: Config, fileName: string, productId: Id, portfolioId: string,
                           env: Env, artifact: ArtifactSpec, version: string, description: string)
    requires s.faults == map[] && Fresh(s)
    requires ArtifactRequest(config, fileName) == Success(artifact)
    requires ActivationRequest(config, fileName) == Success((version, description))
    requires ArtifactsOf(s.products, productId) != []
    ensures var s2 := ReplaceConstraintRun(Exec(s, ListProvisioningArtifacts(productId)).0, productId, portfolioId, env).0;
      UpdateExistingRun(s, config, fileName, productId, portfolioId, env).0.log
        == s2.log + [CreateProvisioningArtifact(productId, artifact),
                     UpdateProvisioningArtifact(productId, s.nextId + 1, version, description, true),
                     DeleteProvisioningArtifact(productId, ArtifactsOf(s.products, productId)[0])]
  {
    var s1 := Exec(s, ListProvisioningArtifacts(productId)).0;
    var s2 := ReplaceConstraintRun(s1, productId, portfolioId, env).0;
    UpdateExistingSteps(s, config, fileName, productId, portfolioId, env);
    NewVersionSequence(s2, productId, ArtifactsOf(s.products, productId), artifact, version, description);
  }

  lemma LogShape<T>(l: seq<T>, a: T, b: T, middle: seq<T>, c: T, d: T, e: T, f: T)
    ensures l + [a] + [b] + middle + [c] + [d, e, f] == l + [a, b] + middle + [c, d, e, f]
  {
    assert [a] + [b] == [a, b];
    assert [c] + [d, e, f] == [c, d, e, f];
  }

  /**
   * With no failing call and a complete config section, the new version is created
   * before the oldest listed one is deleted, and it is the one that survives.
   */
  lemma {:induction false} UpdateExistingVersions(s: State, config: Config, fileName: string, productId: Id, portfolioId: string,
                                                  env: Env, artifact: ArtifactSpec, version: string, description: string)
    requires s.faults == map[] && Fresh(s)
    requires ArtifactRequest(config, fileName) == Success(artifact)
    requires ActivationRequest(config, fileName) == Success((version, description))
    requires ArtifactsOf(s.products, productId) != []
    ensures var (s', o) := UpdateExistingRun(s, config, fileName, productId, portfolioId, env);
      var versions := ArtifactsOf(s.products, productId);
      var newId := s.nextId + 1;
      && o == Ok
      && ArtifactsOf(s'.products, productId) == WithoutId(versions + [newId], versions[0])
      && newId in ArtifactsOf(s'.products, productId) && versions[0] !in ArtifactsOf(s'.products, productId)
  {
    var versions := ArtifactsOf(s.products, productId);
    UpdateExistingSteps(s, config, fileName, productId, portfolioId, env);
    var s1 := Exec(s, ListProvisioningArtifacts(productId)).0;
    var s2 := ReplaceConstraintRun(s1, productId, portfolioId, env).0;
    OldestVersionIsFresh(s, productId);
    NewVersionSequence(s2, productId, versions, artifact, version, description);
    NewVersionArtifacts(s2, productId, versions, artifact, version, description);
  }

  /** A listed version of a known product has an id below the next fresh one. */
  lemma OldestVersionIsFresh(s: State, productId: Id)
    requires Fresh(s) && ArtifactsOf(s.products, productId) != []
    ensures Find(s.products, productId).Some?
    ensures ArtifactsOf(s.products, productId)[0] < s.nextId
  {
    assert Find(s.products, productId).value in s.products;
    assert ArtifactsOf(s.products, productId)[0] in Find(s.products, productId).value.artifacts;
  }

  /**
   * With no failing call, replacing the launch constraint deletes the first listed one (if
   * any) and adds a fresh one with the launch parameters; no product changes.
   */
  lemma ReplaceConstraintSequence(s: State, productId: Id, portfolioId: string, env: Env)
    requires s.faults == map[]
    ensures var (s', o) := ReplaceConstraintRun(s, productId, portfolioId, env);
      var listed := ConstraintPage(s, Some(productId), portfolioId);
      var params := LaunchParameters(env.localRoleName);
      && o == Ok
      && s'.log == s.log + [ListConstraintsForPortfolio(Some(productId), portfolioId)]
           + (if listed == [] then [] else [DeleteConstraint(listed[0])])
           + [CreateConstraint(portfolioId, productId, params)]
      && s'.products == s.products && s'.nextId == s.nextId + 1
      && Constraint(s.nextId, productId, portfolioId, params) in s'.constraints
  {
    var params := LaunchParameters(env.localRoleName);
    var s1 := DeleteConstraintRun(s, productId, portfolioId).0;
    DeleteConstraintEffect(s, productId, portfolioId);
    var s2 := Exec(s1, CreateConstraint(portfolioId, productId, params)).0;
    assert s2.constraints == s1.constraints + [Constraint(s.nextId, productId, portfolioId, params)];
    assert s2.constraints[|s1.constraints|] == Constraint(s.nextId, productId, portfolioId, params);
  }

  /**
   * With no failing call and a complete config section, publishing a new version creates
   * it, activates it and deletes the first previously listed version, in that order.
   */
  lemma NewVersionSequence(s: State, productId: Id, versions: seq<Id>,
                           artifact: ArtifactSpec, version: string, description: string)
    requires s.faults == map[] && versions != []
    ensures var (s', o) := NewVersionRun(s, Success(artifact), Success((version, description)), productId, versions);
      && o == Ok
      && s'.log == s.log
           + [CreateProvisioningArtifact(productId, artifact),
              UpdateProvisioningArtifact(productId, s.nextId, version, description, true),
              DeleteProvisioningArtifact(productId, versions[0])]
  {
  }

  /**
   * The new version is added to the product and the first previously listed one removed:
   * when that one was an existing version, the new one is what remains in its place.
   */
  lemma {:induction false} NewVersionArtifacts(s: State, productId: Id, versions: seq<Id>,
                                               artifact: ArtifactSpec, version: string, description: string)
    requires s.faults == map[]
    requires versions != [] && versions[0] < s.nextId && Find(s.products, productId).Some?
    ensures var s' := NewVersionRun(s, Success(artifact), Success((version, description)), productId, versions).0;
      && ArtifactsOf(s'.products, productId) == WithoutId(ArtifactsOf(s.products, productId) + [s.nextId], versions[0])
      && s.nextId in ArtifactsOf(s'.products, productId) && versions[0] !in ArtifactsOf(s'.products, productId)
  {
    var p := Find(s.products, productId).value;
    var p1 := Apply(p, AddArtifact(s.nextId));
    var products1 := Modify(s.products, productId, AddArtifact(s.nextId));
    var s' := NewVersionRun(s, Success(artifact), Success((version, description)), productId, versions).0;
    assert s'.products == Modify(products1, productId, DropArtifact(versions[0]));
    FindEdited(s.products, p, AddArtifact(s.nextId));
    FindEdited(products1, p1, DropArtifact(versions[0]));
    WithoutIdMembers(p1.artifacts, versions[0]);
  }

  /**
   * On the update path the configuration is read only after the constraint calls: a
   * template without a config section still replaces the product's launch constraint,
   * then raises KeyError before any version is created.
   */
  lemma UpdateExistingLateConfig(s: State, config: Config, fileName: string, productId: Id, portfolioId: string, env: Env)
    requires s.faults == map[] && fileName !in config
    ensures var (s', o) := UpdateExistingRun(s, config, fileName, productId, portfolioId, env);
      && o == Raised(KeyError(fileName))
      && s'.products == s.products
      && 0 < |s'.log| && 0 < s'.nextId
      && s'.log[|s'.log| - 1] == CreateConstraint(portfolioId, productId, LaunchParameters(env.localRoleName))
      && Constraint(s'.nextId - 1, productId, portfolioId, LaunchParameters(env.localRoleName)) in s'.constraints
  {
    var params := LaunchParameters(env.localRoleName);
    var s1 := Exec(s, ListProvisioningArtifacts(productId)).0;
    DeleteConstraintEffect(s1, productId, portfolioId);
    var s2 := DeleteConstraintRun(s1, productId, portfolioId).0;
    var s3 := Exec(s2, CreateConstraint(portfolioId, productId, params)).0;
    assert s3.log == s2.log + [CreateConstraint(portfolioId, productId, params)];
    assert ArtifactRequest(config, fileName) == Failure(KeyError(fileName));
    assert UpdateExistingRun(s, config, fileName, productId, portfolioId, env) == (s3, Raised(KeyError(fileName))) by {
      UpdateExistingSteps(s, config, fileName, productId, portfolioId, env);
    }
  }

  /**
   * With no failing call and a complete config section, a new template creates one
   * product with its first version, adds it to the portfolio and gives it a launch
   * constraint, in that order.
   */
  lemma {:induction false} CreateNewSequence(s: State, config: Config, fileName: string, portfolioId: string, env: Env, spec: ProductSpec)
    requires s.faults == map[] && Fresh(s)
    requires ProductRequest(config, fileName) == Success(spec)
    ensures var (s', o) := CreateNewRun(s, config, fileName, portfolioId, env);
      var params := LaunchParameters(env.localRoleName);
      && o == Ok
      && s'.log == s.log + [CreateProduct(spec), AssociateProductWithPortfolio(s.nextId, portfolioId),
                            CreateConstraint(portfolioId, s.nextId, params)]
      && Find(s'.products, s.nextId) == Some(Product(s.nextId, spec.name, {portfolioId}, [s.nextId + 1]))
      && Constraint(s.nextId + 2, s.nextId, portfolioId, params) in s'.constraints
  {
    CreateProductSequence(s, spec, portfolioId, env);
    CreateProductInCatalog(s, spec, portfolioId, env);
  }

  /** With no failing call, creating a product issues its three calls in order and succeeds. */
  lemma CreateProductSequence(s: State, spec: ProductSpec, portfolioId: string, env: Env)
    requires s.faults == map[]
    ensures var (s', o) := CreateProductRun(s, spec, portfolioId, env);
      && o == Ok
      && s'.log == s.log + [CreateProduct(spec), AssociateProductWithPortfolio(s.nextId, portfolioId),
                            CreateConstraint(portfolioId, s.nextId, LaunchParameters(env.localRoleName))]
  {
  }

  /**
   * With no failing call, the created product is found under the first fresh id, in the
   * portfolio and with its first version, and its launch constraint is in the catalog.
   */
  lemma CreateProductInCatalog(s: State, spec: ProductSpec, portfolioId: string, env: Env)
    requires s.faults == map[] && Fresh(s)
    ensures var s' := CreateProductRun(s, spec, portfolioId, env).0;
      && Find(s'.products, s.nextId) == Some(Product(s.nextId, spec.name, {portfolioId}, [s.nextId + 1]))
      && Constraint(s.nextId + 2, s.nextId, portfolioId, LaunchParameters(env.localRoleName)) in s'.constraints
  {
    var made := Product(s.nextId, spec.name, {}, [s.nextId + 1]);
    var created := Constraint(s.nextId + 2, s.nextId, portfolioId, LaunchParameters(env.localRoleName));
    var s' := CreateProductRun(s, spec, portfolioId, env).0;
    assert s'.products == Modify(s.products + [made], s.nextId, Join(portfolioId));
    assert s'.constraints == s.constraints + [created];
    CreatedJoins(s.products, made, portfolioId);
    LastIn(s.constraints, created);
  }

  /** A product created without portfolios and then added to one is found in exactly that one. */
  lemma CreatedJoins(products: seq<Product>, made: Product, portfolioId: string)
    requires made.portfolios == {} && forall q :: q in products ==> q.id < made.id
    ensures Find(Modify(products + [made], made.id, Join(portfolioId)), made.id) == Some(made.(portfolios := {portfolioId}))
  {
    FindCreated(products, made, Join(portfolioId));
    assert made.portfolios + {portfolioId} == {portfolioId};
  }

  /** An element appended to a sequence is in the result. */
  lemma LastIn<T>(xs: seq<T>, x: T)
    ensures x in xs + [x]
  {
    assert (xs + [x])[|xs|] == x;
  }

  /** A template that is not under PATH causes no call at all. */
  lemma {:induction false} UpdateAllIgnoresOtherPaths(s: State, config: Config, templates: seq<string>, portfolioId: string,
                                                      ids: seq<Id>, names: seq<string>, env: Env)
    requires |ids| == |names|
    requires forall i :: 0 <= i < |templates| ==> !Contains(templates[i], env.path)
    ensures UpdateAllRun(s, config, templates, portfolioId, ids, names, env) == (s, Ok)
    decreases |templates|
  {
    if templates != [] {
      assert !Contains(templates[0], env.path);
      UpdateAllIgnoresOtherPaths(s, config, templates[1..], portfolioId, ids, names, env);
    }
  }

  /**
   * When the commit added and modified nothing, both lists hold only the NoChanges
   * sentinel, and (unless PATH occurs in it) the update step makes no call.
   */
  lemma NoChangesUpdatesNothing(s: State, config: Config, portfolioId: string, ids: seq<Id>, names: seq<string>, env: Env)
    requires |ids| == |names|
    requires !Contains(GitMetadata.NoChanges, env.path)
    ensures Modifications(GitMetadata.NoChanges, GitMetadata.NoChanges) == [GitMetadata.NoChanges, GitMetadata.NoChanges]
    ensures UpdateAllRun(s, config, Modifications(GitMetadata.NoChanges, GitMetadata.NoChanges), portfolioId, ids, names, env) == (s, Ok)
  {
    assert ',' !in GitMetadata.NoChanges;
    SentinelUpdatesNothing(s, config, GitMetadata.NoChanges, portfolioId, ids, names, env);
  }

  /** The same holds for any sentinel without a comma that does not contain PATH. */
  lemma SentinelUpdatesNothing(s: State, config: Config, sentinel: string, portfolioId: string, ids: seq<Id>, names: seq<string>, env: Env)
    requires |ids| == |names|
    requires ',' !in sentinel && !Contains(sentinel, env.path)
    ensures Modifications(sentinel, sentinel) == [sentinel, sentinel]
    ensures UpdateAllRun(s, config, Modifications(sentinel, sentinel), portfolioId, ids, names, env) == (s, Ok)
  {
    SplitWithoutSeparator(sentinel, ',');
    UpdateAllIgnoresOtherPaths(s, config, [sentinel, sentinel], portfolioId, ids, names, env);
  }

  /** The product delete_product removes for position m: the one at the first position of m's name. */
  function Target(keys: seq<string>, ids: seq<Id>, m: nat): Id
    requires |ids| == |keys| && m < |keys|
  {
    ids[IndexOf(keys, keys[m])]
  }

  /** The products delete_product is meant to remove from position j on, in order. */
  function Targets(keys: seq<string>, deletions: seq<string>, ids: seq<Id>, j: nat): seq<Id>
    requires |ids| == |keys| && j <= |keys|
    decreases |keys| - j
  {
    if j == |keys| then []
    else (if keys[j] in deletions then [Target(keys, ids, j)] else []) + Targets(keys, deletions, ids, j + 1)
  }

  /** A product is a target exactly when some position from j on names a deleted file and resolves to it. */
  lemma {:induction false} TargetsSpec(keys: seq<string>, deletions: seq<string>, ids: seq<Id>, j: nat, x: Id)
    requires |ids| == |keys| && j <= |keys|
    ensures x in Targets(keys, deletions, ids, j) <==>
      exists m :: j <= m < |keys| && keys[m] in deletions && x == Target(keys, ids, m)
    decreases |keys| - j
  {
    if j < |keys| {
      TargetsSpec(keys, deletions, ids, j + 1, x);
      var here := if keys[j] in deletions then [Target(keys, ids, j)] else [];
      assert Targets(keys, deletions, ids, j) == here + Targets(keys, deletions, ids, j + 1);
      if x in here {
        assert j <= j < |keys| && keys[j] in deletions && x == Target(keys, ids, j);
      } else if x in Targets(keys, deletions, ids, j + 1) {
        var m :| j + 1 <= m < |keys| && keys[m] in deletions && x == Target(keys, ids, m);
        assert j <= m;
      }
      if exists m :: j <= m < |keys| && keys[m] in deletions && x == Target(keys, ids, m) {
        var m :| j <= m < |keys| && keys[m] in deletions && x == Target(keys, ids, m);
        if m == j {
          assert x in here;
        } else {
          assert j + 1 <= m;
        }
      }
    }
  }

  /**
   * With no failing call, delete_product from position j on succeeds and issues
   * delete_product exactly for its targets, in order.
   */
  lemma {:induction false} DeleteProductsOrder(s: State, keys: seq<string>, deletions: seq<string>, ids: seq<Id>,
                                               portfolioId: string, j: nat)
    requires |ids| == |keys| && j <= |keys|
    requires s.faults == map[]
    ensures var (s', o) := DeleteProductsRun(s, keys, deletions, ids, portfolioId, j);
      o == Ok && Deletions(s'.log) == Deletions(s.log) + Targets(keys, deletions, ids, j)
    decreases |keys| - j
  {
    if j < |keys| {
      if keys[j] !in deletions {
        DeleteProductsOrder(s, keys, deletions, ids, portfolioId, j + 1);
      } else {
        var productId := Target(keys, ids, j);
        var s1 := DeleteConstraintRun(s, productId, portfolioId).0;
        var s2 := Exec(s1, DeleteProduct(productId)).0;
        DeleteOneDeletion(s, productId, portfolioId);
        DeleteProductsOrder(s2, keys, deletions, ids, portfolioId, j + 1);
      }
    }
  }

  /** With no failing call, one turn of delete_product issues exactly one delete_product call. */
  lemma DeleteOneDeletion(s: State, productId: Id, portfolioId: string)
    requires s.faults == map[]
    ensures var s1 := DeleteConstraintRun(s, productId, portfolioId).0;
      Deletions(Exec(s1, DeleteProduct(productId)).0.log) == Deletions(s.log) + [productId]
  {
    var s1 := DeleteConstraintRun(s, productId, portfolioId).0;
    DeleteConstraintEffect(s, productId, portfolioId);
    var listed := ConstraintPage(s, Some(productId), portfolioId);
    var calls := [ListConstraintsForPortfolio(Some(productId), portfolioId)]
      + (if listed == [] then [] else [DeleteConstraint(listed[0])]);
    assert s1.log == s.log + calls;
    DeletionsThenDelete(s.log, calls, productId);
  }

  /** With no failing call, every product that is not a target stays in the catalog. */
  lemma {:induction false} DeleteProductsKeeps(s: State, keys: seq<string>, deletions: seq<string>, ids: seq<Id>,
                                               portfolioId: string, j: nat, p: Product)
    requires |ids| == |keys| && j <= |keys|
    requires s.faults == map[]
    requires p in s.products && p.id !in Targets(keys, deletions, ids, j)
    ensures p in DeleteProductsRun(s, keys, deletions, ids, portfolioId, j).0.products
    decreases |keys| - j
  {
    if j < |keys| {
      if keys[j] !in deletions {
        DeleteProductsKeeps(s, keys, deletions, ids, portfolioId, j + 1, p);
      } else {
        var productId := Target(keys, ids, j);
        var s1 := DeleteConstraintRun(s, productId, portfolioId).0;
        DeleteConstraintEffect(s, productId, portfolioId);
        var s2 := Exec(s1, DeleteProduct(productId)).0;
        assert p.id != productId;
        WithoutProductMembers(s1.products, productId);
        DeleteProductsKeeps(s2, keys, deletions, ids, portfolioId, j + 1, p);
      }
    }
  }

  /**
   * With no failing call, a constraint whose product is not a target stays in the
   * catalog, provided no other constraint shares its id: each turn deletes at most one
   * constraint, one listed for the turn's own product.
   */
  lemma {:induction false} DeleteProductsKeepsConstraints(s: State, keys: seq<string>, deletions: seq<string>, ids: seq<Id>,
                                                          portfolioId: string, j: nat, c: Constraint)
    requires |ids| == |keys| && j <= |keys|
    requires s.faults == map[]
    requires c in s.constraints && c.productId !in Targets(keys, deletions, ids, j)
    requires forall d :: d in s.constraints && d.id == c.id ==> d == c
    ensures c in DeleteProductsRun(s, keys, deletions, ids, portfolioId, j).0.constraints
    decreases |keys| - j
  {
    if j < |keys| {
      if keys[j] !in deletions {
        DeleteProductsKeepsConstraints(s, keys, deletions, ids, portfolioId, j + 1, c);
      } else {
        var productId := Target(keys, ids, j);
        var s1 := DeleteConstraintRun(s, productId, portfolioId).0;
        DeleteConstraintEffect(s, productId, portfolioId);
        var listed := ConstraintPage(s, Some(productId), portfolioId);
        if listed != [] && c.id == listed[0] {
          ConstraintIdsSound(s.constraints, Some(productId), portfolioId, listed[0]);
          assert false;
        }
        var s2 := Exec(s1, DeleteProduct(productId)).0;
        DeleteProductsKeepsConstraints(s2, keys, deletions, ids, portfolioId, j + 1, c);
      }
    }
  }

  /**
   * With no failing call, one turn of delete_product lists the product's constraints in
   * the portfolio, deletes the first one listed (if any), and only then deletes the product.
   */
  lemma DeleteTurnCalls(s: State, productId: Id, portfolioId: string)
    requires s.faults == map[]
    ensures var (s1, o1) := DeleteConstraintRun(s, productId, portfolioId);
      var listed := ConstraintPage(s, Some(productId), portfolioId);
      && o1 == Ok
      && Exec(s1, DeleteProduct(productId)).0.log
         == s.log + [ListConstraintsForPortfolio(Some(productId), portfolioId)]
              + (if listed == [] then [] else [DeleteConstraint(listed[0])]) + [DeleteProduct(productId)]
  {
    DeleteConstraintEffect(s, productId, portfolioId);
  }

  /**
   * When the formatted product names are distinct, delete_product deletes exactly the
   * products whose formatted name equals some formatted deleted path.
   */
  lemma DeleteProductsExact(s: State, keys: seq<string>, deletions: seq<string>, ids: seq<Id>, portfolioId: string)
    requires |ids| == |keys| && s.faults == map[]
    requires forall a, b :: 0 <= a < b < |keys| ==> keys[a] != keys[b]
    ensures var (s', o) := DeleteProductsRun(s, keys, deletions, ids, portfolioId, 0);
      && o == Ok
      && Deletions(s'.log) == Deletions(s.log) + Targets(keys, deletions, ids, 0)
      && (forall x :: x in Targets(keys, deletions, ids, 0) <==> exists m :: 0 <= m < |keys| && keys[m] in deletions && x == ids[m])
  {
    DeleteProductsOrder(s, keys, deletions, ids, portfolioId, 0);
    forall m | 0 <= m < |keys|
      ensures Target(keys, ids, m) == ids[m]
    {
      var i := IndexOf(keys, keys[m]);
      assert !(i < m) && !(m < i);
    }
    forall x
      ensures x in Targets(keys, deletions, ids, 0) <==> exists m :: 0 <= m < |keys| && keys[m] in deletions && x == ids[m]
    {
      TargetsSpec(keys, deletions, ids, 0, x);
    }
  }

  /** When no formatted product name from position j on is among the deletions, nothing is called. */
  lemma {:induction false} DeleteProductsNothingMatches(s: State, keys: seq<string>, deletions: seq<string>, ids: seq<Id>,
                                                        portfolioId: string, j: nat)
    requires |ids| == |keys| && j <= |keys|
    requires forall m :: j <= m < |keys| ==> keys[m] !in deletions
    ensures DeleteProductsRun(s, keys, deletions, ids, portfolioId, j) == (s, Ok)
    decreases |keys| - j
  {
    if j < |keys| {
      assert keys[j] !in deletions;
      DeleteProductsNothingMatches(s, keys, deletions, ids, portfolioId, j + 1);
    }
  }

  /**
   * Deleted files are compared by their whole formatted path, not by file stem: deleting
   * the template dir/name.yaml leaves the product called name in place.
   */
  lemma DeletionComparesWholePaths(s: State, portfolioId: string, id: Id, dir: string, name: string)
    ensures DeleteProductsRun(s, Keys([name]), Keys([dir + "/" + name + ".yaml"]), [id], portfolioId, 0) == (s, Ok)
  {
    var path := dir + "/" + name + ".yaml";
    PathKeyDiffers(dir, name);
    var keys, deletions := Keys([name]), Keys([path]);
    assert keys == [Normalize(name)] && deletions == [Normalize(path)];
    DeleteProductsNothingMatches(s, keys, deletions, [id], portfolioId, 0);
  }

  /** The formatted path of a template keeps its extension, so it never equals the formatted stem. */
  lemma PathKeyDiffers(dir: string, name: string)
    ensures Normalize(name) != Normalize(dir + "/" + name + ".yaml")
  {
    assert ".yaml"[1] == 'y';
    KeyWithSuffixDiffers(dir + "/", name, ".yaml", 1);
  }

  /** A suffix holding a kept character makes the formatted string strictly longer than the formatted middle. */
  lemma KeyWithSuffixDiffers(prefix: string, name: string, suffix: string, i: nat)
    requires i < |suffix| && suffix[i] !in Escaped
    ensures Normalize(name) != Normalize(prefix + name + suffix)
  {
    NormalizeAppend(prefix + name, suffix);
    NormalizeAppend(prefix, name);
    NormalizeKeeps(suffix, i);
    assert |Normalize(prefix + name + suffix)| > |Normalize(name)|;
  }

  /** The association calls for each role, in order. */
  function AssociateCalls(roles: seq<string>, portfolioId: string, accountId: string): seq<Call>
    decreases |roles|
  {
    if roles == [] then []
    else [AssociatePrincipalWithPortfolio(portfolioId, RoleArn(accountId, roles[0]))] + AssociateCalls(roles[1..], portfolioId, accountId)
  }

  /**
   * The association step raises exactly when some role's call fails with an error other
   * than a ClientError, and it then raises that SDK error.
   */
  lemma {:induction false} AssociatePrincipalsRaises(s: State, roles: seq<string>, portfolioId: string, accountId: string)
    ensures var o := AssociatePrincipalsRun(s, roles, portfolioId, accountId).1;
      && (o.Raised? <==> exists i :: 0 <= i < |roles| && RaisesOn(s.faults, AssociatePrincipalWithPortfolio(portfolioId, RoleArn(accountId, roles[i]))))
      && (o.Raised? ==> o.error.Sdk? && !o.error.sdkError.ClientError?)
    decreases |roles|
  {
    if roles != [] {
      var s1 := Exec(s, AssociatePrincipalWithPortfolio(portfolioId, RoleArn(accountId, roles[0]))).0;
      AssociatePrincipalsRaises(s1, roles[1..], portfolioId, accountId);
      if exists i :: 0 <= i < |roles[1..]| && RaisesOn(s.faults, AssociatePrincipalWithPortfolio(portfolioId, RoleArn(accountId, roles[1..][i]))) {
        var i :| 0 <= i < |roles[1..]| && RaisesOn(s.faults, AssociatePrincipalWithPortfolio(portfolioId, RoleArn(accountId, roles[1..][i])));
        assert roles[1..][i] == roles[i + 1];
      }
      if exists i :: 0 <= i < |roles| && RaisesOn(s.faults, AssociatePrincipalWithPortfolio(portfolioId, RoleArn(accountId, roles[i]))) {
        var i :| 0 <= i < |roles| && RaisesOn(s.faults, AssociatePrincipalWithPortfolio(portfolioId, RoleArn(accountId, roles[i])));
        if i > 0 {
          assert roles[i] == roles[1..][i - 1];
        }
      }
    }
  }

  /** Whether this call fails with an error the association step does not swallow. */
  predicate RaisesOn(faults: map<Call, SdkError>, c: Call) {
    c in faults && !faults[c].ClientError?
  }

  /**
   * When every failure is a ClientError, the association step still succeeds: it tries
   * every role in order and grants each role whose call succeeds.
   */
  lemma {:induction false} AssociatePrincipalsSwallowsClientErrors(s: State, roles: seq<string>, portfolioId: string, accountId: string)
    requires forall c :: c in s.faults ==> s.faults[c].ClientError?
    ensures var (s', o) := AssociatePrincipalsRun(s, roles, portfolioId, accountId);
      && o == Ok
      && s'.log == s.log + AssociateCalls(roles, portfolioId, accountId)
      && s.principals <= s'.principals
      && (forall i :: 0 <= i < |roles| && AssociatePrincipalWithPortfolio(portfolioId, RoleArn(accountId, roles[i])) !in s.faults
            ==> Principal(portfolioId, RoleArn(accountId, roles[i])) in s'.principals)
    decreases |roles|
  {
    if roles != [] {
      var (s1, reply) := Exec(s, AssociatePrincipalWithPortfolio(portfolioId, RoleArn(accountId, roles[0])));
      AssociatePrincipalsSwallowsClientErrors(s1, roles[1..], portfolioId, accountId);
      forall i | 0 < i < |roles|
        ensures roles[i] == roles[1..][i - 1]
      {
      }
    }
  }

  /**
   * With config.ini downloaded and no failing SDK call, the janitor first searches the
   * portfolio's products; then either the update step raises (a missing config entry or
   * a short path) and the job fails there, or the deletion and association steps run
   * too, the job succeeds with the added and modified paths as output, and the log ends
   * with the association calls.
   */
  lemma JanitorOrder(s: State, config: Result<Config, Error>, portfolioId: string,
                     added: string, modified: string, deleted: string, env: Env)
    requires config.Success? && s.faults == map[]
    ensures var (s', report) := JanitorRun(s, config, portfolioId, added, modified, deleted, env);
      var calls := AssociateCalls(IamRoles, portfolioId, env.sandboxAccountId);
      && s.log + [SearchProductsAsAdmin(portfolioId)] <= s'.log
      && (report == JobSucceeded(added, modified) || (report.JobFailed? && report.step == Update))
      && (report.JobSucceeded? ==> |calls| <= |s'.log| && s'.log[|s'.log| - |calls|..] == calls)
  {
    ListProductsSpec(s, portfolioId);
    var (s1, listing) := ListProductsRun(s, portfolioId);
    var (ids, names) := listing.value;
    var (s2, o2) := UpdateAllRun(s1, config.value, Modifications(added, modified), portfolioId, ids, names, env);
    if o2.Ok? {
      var deletions := Keys(Split(deleted, ','));
      DeleteProductsOrder(s2, Keys(names), deletions, ids, portfolioId, 0);
      var s3 := DeleteProductsRun(s2, Keys(names), deletions, ids, portfolioId, 0).0;
      AssociatePrincipalsSwallowsClientErrors(s3, IamRoles, portfolioId, env.sandboxAccountId);
      var s4 := AssociatePrincipalsRun(s3, IamRoles, portfolioId, env.sandboxAccountId).0;
      assert JanitorRun(s, config, portfolioId, added, modified, deleted, env) == (s4, JobSucceeded(added, modified));
    }
  }

  /**
   * With config.ini downloaded and no failing SDK call, a job that succeeds has run the
   * update step to its end before any product is deleted, and the products it deletes
   * afterwards are exactly delete_product's targets, in order (none when no path was
   * deleted).
   */
  lemma JanitorDeletes(s: State, config: Result<Config, Error>, portfolioId: string,
                       added: string, modified: string, deleted: string, env: Env)
    requires config.Success? && s.faults == map[]
    ensures var (s', report) := JanitorRun(s, config, portfolioId, added, modified, deleted, env);
      var listing := ListProductsRun(s, portfolioId);
      && listing.1.Success?
      && var (ids, names) := listing.1.value;
      var s2 := UpdateAllRun(listing.0, config.value, Modifications(added, modified), portfolioId, ids, names, env).0;
      (report.JobSucceeded? ==>
         && s2.log <= s'.log
         && Deletions(s'.log) == Deletions(s2.log) + DeletedTargets(names, ids, deleted))
  {
    ListProductsPage(s, portfolioId);
    var (s1, listing) := ListProductsRun(s, portfolioId);
    var (ids, names) := listing.value;
    var s2 := UpdateAllRun(s1, config.value, Modifications(added, modified), portfolioId, ids, names, env).0;
    DeleteThenAssociate(s2, names, ids, deleted, portfolioId, env);
  }

  /** The products the deletion step is meant to remove: none when no path was deleted. */
  function DeletedTargets(names: seq<string>, ids: seq<Id>, deleted: string): seq<Id>
    requires |ids| == |names|
  {
    if |Split(deleted, ',')| != 0 then Targets(Keys(names), Keys(Split(deleted, ',')), ids, 0) else []
  }

  /**
   * With no failing call, the janitor's deletion and association steps succeed, only
   * append to the log, and delete exactly the deletion step's targets.
   */
  lemma DeleteThenAssociate(s2: State, names: seq<string>, ids: seq<Id>, deleted: string, portfolioId: string, env: Env)
    requires |ids| == |names| && s2.faults == map[]
    ensures var (s3, o3) :=
        if |Split(deleted, ',')| != 0 then DeleteProductsRun(s2, Keys(names), Keys(Split(deleted, ',')), ids, portfolioId, 0)
        else (s2, Ok);
      var (s4, o4) := AssociatePrincipalsRun(s3, IamRoles, portfolioId, env.sandboxAccountId);
      && o3 == Ok && o4 == Ok
      && s2.log <= s4.log
      && Deletions(s4.log) == Deletions(s2.log) + DeletedTargets(names, ids, deleted)
  {
    var deletions := Keys(Split(deleted, ','));
    var s3 := if |Split(deleted, ',')| != 0 then DeleteProductsRun(s2, Keys(names), deletions, ids, portfolioId, 0).0 else s2;
    if |Split(deleted, ',')| != 0 {
      DeleteProductsOrder(s2, Keys(names), deletions, ids, portfolioId, 0);
    }
    AssociatePrincipalsSwallowsClientErrors(s3, IamRoles, portfolioId, env.sandboxAccountId);
    var calls := AssociateCalls(IamRoles, portfolioId, env.sandboxAccountId);
    assert calls == [AssociatePrincipalWithPortfolio(portfolioId, RoleArn(env.sandboxAccountId, IamRoles[0]))];
    DeletionsOne(calls[0]);
    DeletionsAppend(s3.log, calls);
  }
}
