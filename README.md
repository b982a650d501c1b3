# Service Catalog reconciliation lambdas, modelled in Dafny

This project models the three AWS Lambda handlers that keep a Service Catalog
portfolio in step with a Git repository of CloudFormation templates:

- **git_metadata** (`GitMetadata`) drains the paged CodeCommit difference listing
  between two commits. It turns the listing into three comma-joined path strings,
  one per change type (added, modified, deleted). An empty string becomes the
  sentinel `"NoChanges"`.
- **sync_catalog** (`SyncCatalog`, with `Normalizer`, `Paths` and `ProductListing`)
  is the janitor. It lists the portfolio's products, then walks the added and
  modified templates. Each template under the relevant path is copied to the
  template store, then either:
  - updates the product whose formatted name matches the file's formatted stem
    (new launch constraint, new version, old version deleted), or
  - creates a new product.

  Next it deletes the products named by deleted paths. Last, it grants the
  account's roles access to the portfolio.
- **remove_portfolio** (`RemovePortfolio`) is a CloudFormation custom resource.
  - On Delete it:
    - revokes the account's principals;
    - lists the portfolio's products;
    - for each product, deletes the portfolio's launch constraints, removes the
      product from the portfolio and deletes it.
  - A failed step is answered with a FAILED response. A SUCCESS response is
    always sent last.

The boto3 clients are replaced by a fake catalog (`Catalog`):
- Every SDK call is a `Call` value.
- `Exec` appends the call to an operation log and applies its effect to the
  catalog state (products, constraints, principals, and a counter for new ids).
- A call fails exactly when it is a key of the state's injected `faults` map.
- The paged listings (search_products_as_admin, list_constraints_for_portfolio)
  answer with their first page, at most `pageSize` entries.
- The class `Catalog.Client` holds that state in fields that its `Invoke` method
  updates in place.

Each handler step has two forms:
- a method that issues its calls through the client, with the source's loops and
  early returns;
- a pure `...Run` function from the old state to the new state and how the step
  ended (`Ok` or `Raised(error)`).

Each method's postcondition says it reaches exactly what its `Run` function
describes. The lemmas state the handlers' properties about those functions:
- call order;
- which products are touched;
- what is left unchanged;
- which failures are tolerated.

The CodeCommit client is replaced by the sequence of responses it gives to
successive requests.

## Model

| member | source | states |
|---|---|---|
| Normalizer.EscapeAndLower | src/lambda/update_servicecatalog/sync_catalog.py:146-159 | removing each escaped character in turn and then lowering yields `Normalize(text)`: the text without any character of ``\`*_{}[]()>#+-.!$/``, lowercased |
| Normalizer.NormalizeShape | src/lambda/update_servicecatalog/sync_catalog.py:155-158 | the key holds no escaped character and no upper-case letter, and is no longer than its input |
| Normalizer.NormalizeIdempotent | src/lambda/remove_portfolio/remove_portfolio.py:25-38 | formatting a formatted string changes nothing |
| Normalizer.NormalizeFixedPoint | src/lambda/remove_portfolio/remove_portfolio.py:30-37 | a string is its own key exactly when it holds no escaped character and no upper-case letter |
| Normalizer.NormalizeAppend | src/lambda/update_servicecatalog/sync_catalog.py:155-158 | formatting works character by character, so the key of `a + b` is the key of `a` followed by the key of `b` |
| Normalizer.NormalizeKeeps | src/lambda/update_servicecatalog/sync_catalog.py:155-158 | a string holding a character outside the escaped set has a non-empty key |
| Strings.Split | src/lambda/update_servicecatalog/sync_catalog.py:219 | `str.split(sep)` gives at least one piece, and no piece holds the separator |
| Strings.JoinSplit | src/lambda/update_servicecatalog/sync_catalog.py:219 | joining the pieces of a split with the separator gives back the string |
| Strings.SplitJoin | src/lambda/git_metadata/git_metadata.py:123-126 | splitting a join of separator-free pieces gives back the pieces |
| Strings.SplitWithoutSeparator | src/lambda/update_servicecatalog/sync_catalog.py:219 | a string without the separator splits into itself alone |
| Strings.SplitWithSeparator | src/lambda/update_servicecatalog/sync_catalog.py:661 | a string holding the separator splits into at least two pieces |
| Paths.BaseName | src/lambda/update_servicecatalog/sync_catalog.py:172 | the file name holds no `/`, is a suffix of the path, and is preceded by `/` when shorter than the path |
| Paths.Stem | src/lambda/update_servicecatalog/sync_catalog.py:173 | the short name is a prefix of the file name without `.`, followed by `.` when shorter |
| Paths.BaseNameIsLastPiece | src/lambda/update_servicecatalog/sync_catalog.py:172 | the file name is the last piece of the path split on `/` |
| Paths.StemIsFirstPiece | src/lambda/update_servicecatalog/sync_catalog.py:173 | the short name is the first piece of the file name split on `.` |
| Paths.SplitPath | src/lambda/update_servicecatalog/sync_catalog.py:162-174 | returns the path's file name, the last piece of the path split on `/`, and that name's short name, the first piece of the file name split on `.` |
| Paths.FormatStringAndFilenames | src/lambda/update_servicecatalog/sync_catalog.py:177-191 | returns the formatted file name, the file name unchanged (the last `/` piece of the path), and the formatted first `.` piece of the file name, which is already in formatted form and holds no `.` |
| Paths.ShortKeyOfFileName | src/lambda/update_servicecatalog/sync_catalog.py:188-190 | the lookup key is the key of the file name's prefix before its first `.`; it holds no `.` and is already in formatted form |
| GitMetadata.Filter | src/lambda/git_metadata/git_metadata.py:114-116 | keeps only records of the change type, all of them, drawn from the input |
| GitMetadata.FilterPartition | src/lambda/git_metadata/git_metadata.py:172-178 | the added, modified and deleted filters together hold as many records as the listing |
| GitMetadata.FilterAppend | src/lambda/git_metadata/git_metadata.py:114-116 | filtering a concatenation gives the filtered parts in the same order, so records keep their listing order |
| GitMetadata.FilterSingle | src/lambda/git_metadata/git_metadata.py:114-116 | a single record is kept exactly when it has the change type; with `FilterAppend` this fixes the result for every input |
| GitMetadata.Paths | src/lambda/git_metadata/git_metadata.py:117-121 | one path per record, or KeyError `beforeBlob` |
| GitMetadata.PathsAt | src/lambda/git_metadata/git_metadata.py:118-121 | the paths exist exactly when every record has a blob; each is the afterBlob path if there is one, else the beforeBlob path |
| GitMetadata.GetChangesConcatenated | src/lambda/git_metadata/git_metadata.py:102-130 | the accumulation loop yields the filtered records' paths joined by `,`; empty leading paths are dropped, as the `changes == ""` test does; a record without a blob fails with KeyError |
| GitMetadata.ConcatenatedRoundTrip | src/lambda/git_metadata/git_metadata.py:123-127 | for non-empty comma-free paths: the string is empty exactly when no record has the type, and otherwise splitting it on `,` gives back the filtered paths in order |
| GitMetadata.OrNoChanges | src/lambda/git_metadata/git_metadata.py:173-180 | the sentinel value is never empty and leaves a non-empty string as it is |
| GitMetadata.GetFileChanges | src/lambda/git_metadata/git_metadata.py:22-76 | returns every page's differences in page order, up to the page without nextToken, or the first error. It issues one request per page read. Each request after the first carries the previous page's token, and none carries the before commit when that is falsy |
| GitMetadata.FollowPages | src/lambda/git_metadata/git_metadata.py:56-75 | the `while "nextToken"` loop collects the same differences and issues the same requests |
| GitMetadata.PreviousCommitId | src/lambda/git_metadata/git_metadata.py:79-99 | a parent is returned exactly when get_commit succeeds with parents, and it is the first one; otherwise None |
| GitMetadata.GetChanges | src/lambda/git_metadata/git_metadata.py:133-209 | every request uses the resolved before commit. The job succeeds exactly when the listing and the three classifications succeed. Its outputs are then the three path strings with the sentinel, the job id, the resolved before commit, and the after commit twice (after_commit and commit_id). A failed listing fails the job with its error |
| ProductListing.ListProductsForPortfolio | src/lambda/remove_portfolio/remove_portfolio.py:41-68 | makes exactly the single search call `ListProductsRun` describes, and returns its ids and formatted names |
| ProductListing.CollectViews | src/lambda/update_servicecatalog/sync_catalog.py:137-139 | the ids and raw names of the search result, in response order |
| ProductListing.FormatAll | src/lambda/update_servicecatalog/sync_catalog.py:140-142 | the formatted form of each name, position by position |
| ProductListing.ListProductsSpec | src/lambda/update_servicecatalog/sync_catalog.py:116-143 | one search call and no other change. It fails exactly when the search fails. Otherwise the ids are those of the first page of the portfolio's products (at most the page size), both lists have the same length, and each position describes one product of the portfolio. When the portfolio's products fit in one page, every one of them is listed. Every name is already formatted |
| ProductListing.ListProductsPage | src/lambda/update_servicecatalog/sync_catalog.py:130-139 | a search that does not fail lists the ids of the first page, in order, and only adds its call to the log |
| ProductListing.ListProductsMissesLaterPages | src/lambda/update_servicecatalog/sync_catalog.py:130-139 | with distinct ids, the portfolio's product right after the first page is not listed: the single search call never asks for a second page |
| SyncCatalog.LookupAllSpec | src/lambda/update_servicecatalog/sync_catalog.py:360-384 | reading options from a section succeeds exactly when all are present, yielding their values in order; otherwise it raises KeyError for the first missing one |
| SyncCatalog.ProductRequestReads | src/lambda/update_servicecatalog/sync_catalog.py:360-384 | every option create_product reads is present in the section named by the raw file name, and each argument (name, owner, description, support description, e-mail and URL, product type, tag key and value, version parameters) is the option of that name |
| SyncCatalog.ArtifactRequestReads | src/lambda/update_servicecatalog/sync_catalog.py:302-314 | the new version's parameters come from the file name's section (Name, Diff_Description, TemplateURL, ProductType) |
| SyncCatalog.ActivationRequestReads | src/lambda/update_servicecatalog/sync_catalog.py:324-334 | the activation's name and description come from the section's Version and Diff_Description |
| SyncCatalog.IndexOf | src/lambda/update_servicecatalog/sync_catalog.py:258 | `list.index`: the first position holding the value |
| SyncCatalog.DeleteProductConstraint | src/lambda/update_servicecatalog/sync_catalog.py:541-571 | issues the calls of `DeleteConstraintRun`: one listing for the product in the portfolio, then the deletion of the first listed constraint, if any |
| SyncCatalog.DeleteConstraintEffect | src/lambda/update_servicecatalog/sync_catalog.py:553-571 | at most one constraint, the first listed, is deleted. An empty listing is not an error. Only SDK errors are raised, never IndexError. Products, principals and the id counter are unchanged |
| SyncCatalog.CreateLaunchConstraint | src/lambda/update_servicecatalog/sync_catalog.py:574-595 | one create_constraint call with the launch parameters, raising its failure |
| SyncCatalog.CopyTestedTemplate | src/lambda/update_servicecatalog/sync_catalog.py:45-80 | one upload; the result is True exactly when the upload did not fail, and a failure is not raised |
| SyncCatalog.UpdateExisting | src/lambda/update_servicecatalog/sync_catalog.py:257-356 | issues the calls of `UpdateExistingRun`, stopping at the first raised error |
| SyncCatalog.ReplaceConstraint | src/lambda/update_servicecatalog/sync_catalog.py:274-299 | delete_constraint then create_constraint, as `ReplaceConstraintRun` |
| SyncCatalog.NewVersion | src/lambda/update_servicecatalog/sync_catalog.py:301-356 | create, activate and delete versions as `NewVersionRun` describes, reading the config just before the calls that need it |
| SyncCatalog.CreateNew | src/lambda/update_servicecatalog/sync_catalog.py:357-424 | reads the whole section first, then create_product, associate and create_constraint for the returned id, as `CreateNewRun` |
| SyncCatalog.CreateNewNeedsConfig | src/lambda/update_servicecatalog/sync_catalog.py:357-384 | the section is read before any call: the read fails exactly when the section or one of its options is missing, and then nothing is called or changed and KeyError is raised, naming the section when the section is missing |
| SyncCatalog.UpdateTemplate | src/lambda/update_servicecatalog/sync_catalog.py:220-426 | one changed file: ignored unless its path contains PATH. Otherwise it is copied under its third path component (IndexError if there is none), then updates the product at the first match of its short key, or creates a new one |
| SyncCatalog.UpdatePortfolio | src/lambda/update_servicecatalog/sync_catalog.py:194-426 | visits the added then the modified paths in order and stops at the first raised error, as `UpdateAllRun` |
| SyncCatalog.DeleteProducts | src/lambda/update_servicecatalog/sync_catalog.py:461-538 | for each formatted product name found among the formatted deleted paths, delete_constraint and then delete_product for the id at the name's first position, as `DeleteProductsRun` |
| SyncCatalog.AssociatePrincipals | src/lambda/update_servicecatalog/sync_catalog.py:429-458 | associates each role's ARN in turn; a ClientError is swallowed and any other error raises, as `AssociatePrincipalsRun` |
| SyncCatalog.ServiceCatalogJanitor | src/lambda/update_servicecatalog/sync_catalog.py:598-708 | download, listing, update, deletion and association in that order, each failure ending the job as `JanitorRun` describes. A failed listing is raised without a job report |
| SyncCatalog.JanitorOrder | src/lambda/update_servicecatalog/sync_catalog.py:598-708 | with the config loaded and no failing call, the search comes first. Then either the update step fails the job, or the job succeeds with the added and modified paths and the log ends with the association calls |
| SyncCatalog.JanitorDeletes | src/lambda/update_servicecatalog/sync_catalog.py:644-691 | with the config loaded and no failing call, a successful job has finished the update step before deleting anything, and the products it deletes after that are exactly delete_product's targets, in order |
| SyncCatalog.DeleteThenAssociate | src/lambda/update_servicecatalog/sync_catalog.py:661-691 | with no failure, the deletion and association steps both succeed, only append to the log, and delete exactly the targets |
| SyncCatalog.UpdateExistingSteps | src/lambda/update_servicecatalog/sync_catalog.py:263-300 | an update lists the versions, replaces the constraint, then publishes the new version against the versions listed at the start |
| SyncCatalog.UpdateExistingLog | src/lambda/update_servicecatalog/sync_catalog.py:263-356 | the calls of an update, in order: list versions, list constraints, delete the first constraint if any, create the constraint once, create the version, activate it, delete the first listed version |
| SyncCatalog.UpdateExistingTail | src/lambda/update_servicecatalog/sync_catalog.py:301-356 | after the constraint replacement, exactly create, activate (the new id) and delete (the first listed version) follow |
| SyncCatalog.ReplaceConstraintSequence | src/lambda/update_servicecatalog/sync_catalog.py:274-299 | with no failure, the constraint refresh is the listing, at most one deletion and exactly one creation, and the new constraint is present |
| SyncCatalog.NewVersionSequence | src/lambda/update_servicecatalog/sync_catalog.py:301-356 | with no failure, the version calls are create, activate with Active=True, and delete of the first listed version, in that order |
| SyncCatalog.NewVersionArtifacts | src/lambda/update_servicecatalog/sync_catalog.py:301-356 | afterwards the product's versions are the old ones plus the new one, minus the first listed; so the new version is present and the first listed one is gone |
| SyncCatalog.UpdateExistingVersions | src/lambda/update_servicecatalog/sync_catalog.py:263-356 | a whole update succeeds and replaces the first listed version with the new one |
| SyncCatalog.UpdateExistingLateConfig | src/lambda/update_servicecatalog/sync_catalog.py:276-306 | without a config section for the file, an update still replaces the constraint before it raises KeyError |
| SyncCatalog.CreateProductSequence | src/lambda/update_servicecatalog/sync_catalog.py:358-424 | with no failure, a creation is create_product, associate with the returned id, create_constraint for that id, in that order |
| SyncCatalog.CreateProductInCatalog | src/lambda/update_servicecatalog/sync_catalog.py:358-413 | the created product is in the portfolio with its first version, and has a launch constraint there |
| SyncCatalog.CreateNewSequence | src/lambda/update_servicecatalog/sync_catalog.py:357-424 | a new template with a complete section yields these three calls and this product and constraint |
| SyncCatalog.UpdateAllIgnoresOtherPaths | src/lambda/update_servicecatalog/sync_catalog.py:219-221 | paths that do not contain PATH change nothing and issue no call |
| SyncCatalog.SentinelUpdatesNothing | src/lambda/update_servicecatalog/sync_catalog.py:219-221 | a comma-free sentinel in both inputs is visited twice and, not containing PATH, issues no call |
| SyncCatalog.NoChangesUpdatesNothing | src/lambda/update_servicecatalog/sync_catalog.py:219-221 | the `"NoChanges"` sentinel issues no catalog call |
| SyncCatalog.TargetsSpec | src/lambda/update_servicecatalog/sync_catalog.py:509-512 | the deleted ids are exactly the ids at the first position of each product name found among the deletions |
| SyncCatalog.DeleteProductsOrder | src/lambda/update_servicecatalog/sync_catalog.py:509-536 | with no failure, the deletion step succeeds, and its delete_product calls are exactly the targets, in product-list order |
| SyncCatalog.DeleteOneDeletion | src/lambda/update_servicecatalog/sync_catalog.py:513-529 | one matched product costs exactly one delete_product call |
| SyncCatalog.DeleteTurnCalls | src/lambda/update_servicecatalog/sync_catalog.py:513-529 | with no failure, one matched product's turn is: list its constraints in the portfolio, delete the first listed one if any, then delete the product |
| SyncCatalog.DeleteProductsKeeps | src/lambda/update_servicecatalog/sync_catalog.py:509-538 | a product that is not a target stays in the catalog unchanged |
| SyncCatalog.DeleteProductsKeepsConstraints | src/lambda/update_servicecatalog/sync_catalog.py:509-571 | with no failure, a constraint whose product is not a target, and whose id no other constraint shares, stays in the catalog |
| SyncCatalog.DeleteProductsExact | src/lambda/update_servicecatalog/sync_catalog.py:509-536 | with distinct names, the deleted ids are exactly those whose name matches a deleted entry |
| SyncCatalog.DeleteProductsNothingMatches | src/lambda/update_servicecatalog/sync_catalog.py:509-538 | when no name matches, nothing is called and nothing changes |
| SyncCatalog.DeletionComparesWholePaths | src/lambda/update_servicecatalog/sync_catalog.py:492-493 | deleting the template `dir/name.yaml` leaves the product called `name` in place |
| SyncCatalog.PathKeyDiffers | src/lambda/update_servicecatalog/sync_catalog.py:492-493 | the formatted full path of a `.yaml` template never equals the formatted stem |
| SyncCatalog.AssociatePrincipalsSwallowsClientErrors | src/lambda/update_servicecatalog/sync_catalog.py:442-458 | when every failure is a ClientError, the association step succeeds after trying each role in order. Each role whose call succeeds is granted, and no grant is lost |
| SyncCatalog.AssociatePrincipalsRaises | src/lambda/update_servicecatalog/sync_catalog.py:442-458 | the association step raises exactly when some role's call fails with an error other than a ClientError, and it raises that SDK error |
| RemovePortfolio.DeleteConstraints | src/lambda/remove_portfolio/remove_portfolio.py:118-152 | issues the calls `DeleteConstraintsRun` describes: one listing, then a deletion per listed constraint |
| RemovePortfolio.DeleteEachFails | src/lambda/remove_portfolio/remove_portfolio.py:143-152 | the loop raises exactly when deleting one of the listed constraints fails (the `except IndexError` never fires) |
| RemovePortfolio.DeleteEachLog | src/lambda/remove_portfolio/remove_portfolio.py:143-147 | with no failure, one delete_constraint per listed id, in listed order |
| RemovePortfolio.DeleteEachDeletes | src/lambda/remove_portfolio/remove_portfolio.py:143-147 | afterwards the constraints are exactly those not listed |
| RemovePortfolio.DeleteConstraintsLog | src/lambda/remove_portfolio/remove_portfolio.py:128-147 | a listing without product filter, then every constraint of the portfolio deleted in listed order |
| RemovePortfolio.DeleteConstraintsClears | src/lambda/remove_portfolio/remove_portfolio.py:128-152 | afterwards all constraints of other portfolios remain; when the portfolio's constraints fit in one page of the listing, none of them is left |
| RemovePortfolio.DeleteOne | src/lambda/remove_portfolio/remove_portfolio.py:84-115 | one turn of the loop: constraints, disassociation, deletion, as `DeleteOneRun` |
| RemovePortfolio.DeleteProducts | src/lambda/remove_portfolio/remove_portfolio.py:71-115 | every product id in turn, stopping at the first raised error, as `DeleteProductsRun` |
| RemovePortfolio.DeleteOneProducts | src/lambda/remove_portfolio/remove_portfolio.py:84-115 | a raising turn leaves the products unchanged. Otherwise the product has left the portfolio, and it is also gone unless its delete_product failed |
| RemovePortfolio.DeleteOneLeaves | src/lambda/remove_portfolio/remove_portfolio.py:95-115 | after a completed turn the product is outside the portfolio; products already outside stay outside, absent ones stay absent |
| RemovePortfolio.DeleteOneReturns | src/lambda/remove_portfolio/remove_portfolio.py:108-115 | when no constraint call and no removal from the portfolio can fail, a turn completes: a delete_product failure is logged, not raised |
| RemovePortfolio.DeleteOneRaises | src/lambda/remove_portfolio/remove_portfolio.py:84-152 | a turn raises exactly when the constraint listing, the deletion of one listed constraint, or the product's removal from the portfolio fails, and it raises that SDK error |
| RemovePortfolio.DeleteOneDeletes | src/lambda/remove_portfolio/remove_portfolio.py:83-115 | a turn adds its product to the deletions when it returns, and nothing when it raises |
| RemovePortfolio.DeleteOneKeepsOthers | src/lambda/remove_portfolio/remove_portfolio.py:95-109 | a turn leaves every other product as it was |
| RemovePortfolio.DeleteOneLog | src/lambda/remove_portfolio/remove_portfolio.py:84-109 | with no failure, a turn is: list constraints, delete each, disassociate, delete_product |
| RemovePortfolio.DeleteOneClears | src/lambda/remove_portfolio/remove_portfolio.py:85 | after a turn with no failure, the portfolio has no constraint, provided its constraints fit in one page of the listing |
| RemovePortfolio.DeleteOneDeletions | src/lambda/remove_portfolio/remove_portfolio.py:108-109 | a turn issues exactly one delete_product call, for its product |
| RemovePortfolio.DeleteProductsKeepsLeft | src/lambda/remove_portfolio/remove_portfolio.py:83-115 | a product outside the portfolio is never brought back |
| RemovePortfolio.DeleteProductsKeepsAbsent | src/lambda/remove_portfolio/remove_portfolio.py:83-115 | a product absent from the catalog never reappears |
| RemovePortfolio.DeleteProductsToleratesFailedDeletes | src/lambda/remove_portfolio/remove_portfolio.py:108-115 | when no constraint call and no removal from the portfolio can fail, the loop completes and every listed product has left the portfolio |
| RemovePortfolio.DeleteProductsStops | src/lambda/remove_portfolio/remove_portfolio.py:83-115 | whatever fails, the loop stops at the first turn that raises: the products of the turns before it are deleted, and none from that turn on. It returns exactly when no turn raises |
| RemovePortfolio.DeleteProductsKeepsOthers | src/lambda/remove_portfolio/remove_portfolio.py:83-115 | the loop leaves every product it was not given as it was |
| RemovePortfolio.DeleteAllListed | src/lambda/remove_portfolio/remove_portfolio.py:83-115 | when no constraint call and no removal from the portfolio can fail, every turn returns and the deletions are exactly the given ids, in order |
| RemovePortfolio.DeleteProductsDeletes | src/lambda/remove_portfolio/remove_portfolio.py:83-109 | with no failure, the delete_product calls are exactly the listed ids, in order |
| RemovePortfolio.DeleteProductsClears | src/lambda/remove_portfolio/remove_portfolio.py:83-94 | after a non-empty loop with no failure, the portfolio has no constraint, provided its constraints fit in one page of the listing |
| RemovePortfolio.DeleteProductsRemoves | src/lambda/remove_portfolio/remove_portfolio.py:83-109 | with no failure every listed product is gone from the catalog |
| RemovePortfolio.DisassociatePrincipals | src/lambda/remove_portfolio/remove_portfolio.py:155-181 | disassociates each role's ARN in turn and raises the first failure, as `DisassociatePrincipalsRun` |
| RemovePortfolio.DisassociatePrincipalsFails | src/lambda/remove_portfolio/remove_portfolio.py:168-181 | the step raises exactly when the call for one of the roles fails |
| RemovePortfolio.DisassociatePrincipalsRevokes | src/lambda/remove_portfolio/remove_portfolio.py:168-181 | when no call fails, one call per role is issued in order, every role's ARN is revoked, and nothing is granted |
| RemovePortfolio.RemovePortfolio | src/lambda/remove_portfolio/remove_portfolio.py:184-246 | dispatch on the request type and the responses sent, as `RemovePortfolioRun` |
| RemovePortfolio.NothingToDoUnlessDelete | src/lambda/remove_portfolio/remove_portfolio.py:196-203 | Create and Update change nothing and send SUCCESS twice; another type sends one SUCCESS |
| RemovePortfolio.EndsWithSuccess | src/lambda/remove_portfolio/remove_portfolio.py:196-246 | one to four responses. The last is always SUCCESS. On Delete every earlier response is FAILED |
| RemovePortfolio.FailedListingReportsTwice | src/lambda/remove_portfolio/remove_portfolio.py:221-233 | a failed listing ends the responses with FAILED, FAILED, SUCCESS: one for the listing and one for the deletion over the unbound ids. No call follows the search, and no product or constraint changes |
| RemovePortfolio.DeleteRequestOrder | src/lambda/remove_portfolio/remove_portfolio.py:204-233 | with no failure, principals are revoked first, then the products are searched, then exactly the first page of the portfolio's products is deleted, in listed order; one SUCCESS is sent |
| RemovePortfolio.DeleteRequestEmptiesPortfolio | src/lambda/remove_portfolio/remove_portfolio.py:204-233 | with no failure, every product of the portfolio is gone when they fit in one page of the search; and if the portfolio had a product, no constraint of it remains when they fit in one page of the constraint listing |
| RemovePortfolio.DeleteRequestKeepsUnlisted | src/lambda/remove_portfolio/remove_portfolio.py:204-233 | whatever fails, a product the search did not list is left as it was |
| RemovePortfolio.DeleteRequestMissesLaterPages | src/lambda/remove_portfolio/remove_portfolio.py:56-58 | with distinct ids, the portfolio's product right after the first page of the search survives a Delete request |
| RemovePortfolio.RevocationFailureContinues | src/lambda/remove_portfolio/remove_portfolio.py:204-246 | when only revocation calls fail, one FAILED response is sent if a revocation failed, and the handler still searches and deletes every listed product before the final SUCCESS |
| RemovePortfolio.RevokedThenDeleted | src/lambda/remove_portfolio/remove_portfolio.py:204-233 | when only revocation calls fail, the search after them lists the first page, every listed product's turn returns, and the deletions are exactly those products |

## Behaviour as coded

The model follows what the handlers do. In these places that differs from what
their names and documentation lead one to expect.

- **Config key.** The config section is looked up by the raw file name (for
  example `foo.yaml`), not by a normalised short name (sync_catalog.py:306, 362). A
  missing section raises KeyError.
- **Late config read on update.** On the update path the config is first read after
  the constraint has been replaced. A missing section therefore fails after two
  mutating calls (`SyncCatalog.UpdateExistingLateConfig`).
- **One constraint creation.** delete_constraint catches IndexError itself, so the
  `except IndexError` branch of update_portfolio never runs and create_constraint is
  issued once (`SyncCatalog.DeleteConstraintEffect`).
- **Six update calls.** The update path also issues update_provisioning_artifact
  with Active=True, so it makes six calls, not five (`SyncCatalog.UpdateExistingLog`).
- **Whole-path deletion matching.** delete_product compares formatted product names
  with formatted *full* deleted paths. Deleting `products/foo.yaml` does not delete
  the product `foo` (`SyncCatalog.DeletionComparesWholePaths`).
- **First page only.** The product search and the constraint listing are single
  calls that never pass a page token, so only the first page of each is seen. The
  fake answers both with the first `pageSize` entries. A portfolio larger than one
  page keeps its later products and constraints
  (`RemovePortfolio.DeleteRequestMissesLaterPages`,
  `ProductListing.ListProductsMissesLaterPages`).
- **Every ClientError swallowed.** associate_principal_within_this_account swallows
  every ClientError, not only ResourceNotFound: the `pass` sits after the `if`.
- **remove_portfolio failures.**
  - A delete_product failure is logged and the loop continues.
  - A disassociation failure, of products or of principals, aborts its loop.
  - A failed listing makes the deletion step fail with NameError, so FAILED is sent
    twice.
- **String outputs.** The diff classifier yields comma-joined strings with a
  `"NoChanges"` sentinel, not sets of paths. The relevance filter (PATH containment)
  is applied by update_portfolio.
- **Deletion always attempted.** `len(outdated_files.split(",")) != 0` always holds,
  so the deletion step always runs.

## Left out

- I/O, logging, environment variables, client construction and event parsing
  (`get_user_params`, the CodePipeline job JSON) are left out. The handlers take the
  parsed values as parameters.
- The CloudFormation event and `cfnresponse.send` become a response list. The
  pipeline's `put_job_success` and `put_job_failure` become a `JobReport` or
  `JobResult` value.
- `download_config_file` (S3 download, unzip, configparser) is left out.
  - The parsed config is a map from section name to options, and the download's
    outcome is a parameter.
  - configparser's case-insensitive option names and its DEFAULT section are not
    modelled.
- The section names that delete_product formats (sync_catalog.py:480-487) are never
  used in its decision, so the model does not compute them.
- Python's `str.lower` is modelled on ASCII letters only.
- The launch constraint's JSON (`json.dumps`) is modelled without escaping the role
  name.
- The fake catalog does not reject unknown ids (no ResourceNotFound). Every failure
  comes from the injected `faults` map.
  - UpdateProvisioningArtifact's name, description and activation are logged, not
    stored on the version.
  - The product fields other than name, portfolios and versions are not stored.
- `copy_tested_template`'s `object_name is None` branch is left out, because its only
  caller always passes a name.
- `template.find(PATH) is not -1` is modelled as `!= -1`; with CPython's small-int
  caching the two agree.
- A `None` SANDBOX_ACCOUNT_ID, which makes the ARN concatenation raise TypeError, is
  not modelled. The account id is a string.
- The unused `product_id` parameter of remove_portfolio's delete_constraint is kept
  but ignored, as in the source.
- `response_data`, a module-level dict, is only ever set to the message of the
  response being sent. That message is stored in each response.
- get_file_changes' `response is None` return is unreachable and not modelled.
- GitMetadata.GetFileChanges: a listing whose pages never stop (`nextToken` forever)
  is excluded by the precondition `Ends`. The model does not describe a
  non-terminating listing.
- GitMetadata.GetChanges: when a classification fails, the contract says the job
  fails, but not with which error.
- SyncCatalog.JanitorOrder: the contract does not say which errors the update step
  can raise without SDK failures (KeyError, IndexError).
- SyncCatalog.UpdateExistingLog, SyncCatalog.UpdateExistingVersions,
  SyncCatalog.CreateNewSequence and SyncCatalog.CreateProductInCatalog assume the
  catalog hands out fresh ids (`Fresh`), as Service Catalog does.
- SyncCatalog.DeleteProductsExact assumes distinct formatted product names. With
  duplicates, `DeleteProductsOrder` still gives the exact sequence, deleting the
  first-indexed product once per duplicate.
- SyncCatalog.DeleteProductsKeepsConstraints assumes that no other constraint shares
  the kept constraint's id, as Service Catalog's ids are unique.
- RemovePortfolio.DeleteConstraintsClears, RemovePortfolio.DeleteOneClears,
  RemovePortfolio.DeleteProductsClears and RemovePortfolio.DeleteRequestEmptiesPortfolio
  promise an emptied portfolio only when its products and constraints fit in one page
  of their listings, because the handler never asks for a second page.
- The fake uses one page size for both listings; Service Catalog's own page sizes are
  not modelled.
- RemovePortfolio.DeleteRequestOrder states only the first role's revocation, because
  the role list holds one role. `RemovePortfolio.DisassociatePrincipalsRevokes` states
  it for every role.
- Properties stated for runs with no failing call (`faults == map[]`) do not describe
  failures. Those are covered by the `...Fails`, `...Returns`, `...Tolerates...` and
  `FailedListing...` lemmas and by the methods' equations with the `Run` functions.
