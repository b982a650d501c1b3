/**
 * The git_metadata lambda (src/lambda/git_metadata/git_metadata.py): it drains the paged
 * CodeCommit difference listing between two commits and turns it into three
 * comma-joined path strings, one per change type, with "NoChanges" standing for none.
 * The CodeCommit client is replaced by the sequence of responses it would give.
 */
module GitMetadata {
  import opened Wrappers
  import opened Strings

  /** CodeCommit's change types: added, modified, deleted. */
  datatype ChangeType = A | M | D

  datatype Blob = Blob(path: string)

  /** One record of a get_differences response; a deleted file has no afterBlob, an added one no beforeBlob. */
  datatype Difference = Difference(changeType: ChangeType, beforeBlob: Option<Blob>, afterBlob: Option<Blob>)

  datatype Error =
    | KeyError(key: string)          // a key missing from a response
    | ServiceError(message: string)  // an exception raised by the CodeCommit client

  /** The value put in place of an empty list of paths. */
  const NoChanges: string := "NoChanges"

  /** The path a record is addressed by: afterBlob's if present, else beforeBlob's. */
  function PathOf(d: Difference): Result<string, Error> {
    if d.afterBlob.Some? then Success(d.afterBlob.value.path)
    else if d.beforeBlob.Some? then Success(d.beforeBlob.value.path)
    else Failure(KeyError("beforeBlob"))
  }

  /** The records of one change type, in input order. */
  function Filter(items: seq<Difference>, t: ChangeType): (r: seq<Difference>)
    ensures |r| <= |items|
    ensures forall i :: 0 <= i < |r| ==> r[i].changeType == t && r[i] in items
    ensures forall i :: 0 <= i < |items| && items[i].changeType == t ==> items[i] in r
    decreases |items|
  {
    if items == [] then []
    else (if items[0].changeType == t then [items[0]] else []) + Filter(items[1..], t)
  }

  /** The paths of the records, in order; a record without blobs fails the whole list. */
  function Paths(ds: seq<Difference>): (r: Result<seq<string>, Error>)
    ensures r.Success? ==> |r.value| == |ds|
    ensures r.Failure? ==> r.error == KeyError("beforeBlob")
    decreases |ds|
  {
    if ds == [] then Success([])
    else match Paths(ds[..|ds| - 1])
      case Failure(e) => Failure(e)
      case Success(ps) =>
        match PathOf(ds[|ds| - 1])
        case Failure(e) => Failure(e)
        case Success(p) => Success(ps + [p])
  }

  /** The paths succeed exactly when every record has one, and then they are the records' paths in order. */
  lemma {:induction false} PathsAt(ds: seq<Difference>)
    ensures Paths(ds).Success? <==> forall i :: 0 <= i < |ds| ==> PathOf(ds[i]).Success?
    ensures Paths(ds).Success? ==> forall i :: 0 <= i < |ds| ==> Paths(ds).value[i] == PathOf(ds[i]).value
    decreases |ds|
  {
    if ds != [] {
      var init := ds[..|ds| - 1];
      PathsAt(init);
      assert forall i :: 0 <= i < |init| ==> init[i] == ds[i];
    }
  }

  /** The list without its leading empty strings. */
  function DropLeadingEmpty(ps: seq<string>): (r: seq<string>)
    ensures r == [] || r[0] != ""
    decreases |ps|
  {
    if ps == [] then [] else if ps[0] == "" then DropLeadingEmpty(ps[1..]) else ps
  }

  /**
   * What get_changes_concatenated returns: the paths of the records of the given type,
   * joined by ','. The accumulator starts empty and is replaced while it is still empty,
   * so empty paths at the front leave no trace.
   */
  function Concatenated(items: seq<Difference>, t: ChangeType): Result<string, Error> {
    match Paths(Filter(items, t))
    case Failure(e) => Failure(e)
    case Success(ps) => Success(Join(DropLeadingEmpty(ps), ','))
  }

  lemma {:induction false} DropLeadingEmptySnoc(ps: seq<string>, p: string)
    ensures DropLeadingEmpty(ps + [p]) ==
      if DropLeadingEmpty(ps) == [] then (if p == "" then [] else [p]) else DropLeadingEmpty(ps) + [p]
    decreases |ps|
  {
    if ps != [] {
      assert (ps + [p])[1..] == ps[1..] + [p];
      DropLeadingEmptySnoc(ps[1..], p);
    } else {
      assert ps + [p] == [p];
    }
  }

  lemma JoinOfDropped(ps: seq<string>)
    ensures Join(DropLeadingEmpty(ps), ',') == "" <==> DropLeadingEmpty(ps) == []
  {
  }

  /** Extending a successful prefix of records by one more record with a path. */
  lemma PathsSnoc(ds: seq<Difference>, i: nat)
    requires i < |ds| && Paths(ds[..i]).Success? && PathOf(ds[i]).Success?
    ensures Paths(ds[..i + 1]) == Success(Paths(ds[..i]).value + [PathOf(ds[i]).value])
  {
    assert ds[..i + 1][..i] == ds[..i];
  }

  /** One step of the accumulation: replace the empty accumulator, or append ',' and the path. */
  lemma AccumulateStep(ps: seq<string>, path: string)
    ensures Join(DropLeadingEmpty(ps + [path]), ',') ==
      if Join(DropLeadingEmpty(ps), ',') == "" then path else Join(DropLeadingEmpty(ps), ',') + "," + path
  {
    DropLeadingEmptySnoc(ps, path);
    JoinOfDropped(ps);
    if DropLeadingEmpty(ps) != [] {
      JoinSnoc(DropLeadingEmpty(ps), path, ',');
    }
  }

  /** get_changes_concatenated: filter by change type, then accumulate the paths in a loop. */
  method GetChangesConcatenated(items: seq<Difference>, changeType: ChangeType) returns (r: Result<string, Error>)
    ensures r == Concatenated(items, changeType)
  {
    var filtered := Filter(items, changeType);
    var changes := "";
    for i := 0 to |filtered|
      invariant Paths(filtered[..i]).Success?
      invariant changes == Join(DropLeadingEmpty(Paths(filtered[..i]).value), ',')
    {
      var d := filtered[i];
      var path: string;
      if d.afterBlob.Some? {
        path := d.afterBlob.value.path;
      } else if d.beforeBlob.Some? {
        path := d.beforeBlob.value.path;
      } else {
        PathsAt(filtered);
        return Failure(KeyError("beforeBlob"));
      }
      PathsSnoc(filtered, i);
      AccumulateStep(Paths(filtered[..i]).value, path);
      if changes == "" {
        changes := path;
      } else {
        changes := changes + "," + path;
      }
    }
    assert filtered[..|filtered|] == filtered;
    r := Success(changes);
  }

  /**
   * When every record of the type has a non-empty path without ',', the result is empty
   * exactly when there is no such record, and otherwise splitting it on ',' gives back
   * the records' paths in input order.
   */
  lemma ConcatenatedRoundTrip(items: seq<Difference>, t: ChangeType)
    requires forall d :: d in items && d.changeType == t ==>
      PathOf(d).Success? && PathOf(d).value != "" && ',' !in PathOf(d).value
    ensures Concatenated(items, t).Success?
    ensures Concatenated(items, t).value == "" <==> Filter(items, t) == []
    ensures Filter(items, t) != [] ==> Split(Concatenated(items, t).value, ',') == Paths(Filter(items, t)).value
  {
    var f := Filter(items, t);
    PathsAt(f);
    var ps := Paths(f).value;
    assert ps == [] || ps[0] != "";
    assert DropLeadingEmpty(ps) == ps;
    if f != [] {
      SplitJoin(ps, ',');
    }
  }

  /** The record types partition the records: every record is kept by exactly one filter. */
  lemma {:induction false} FilterPartition(items: seq<Difference>)
    ensures |Filter(items, A)| + |Filter(items, M)| + |Filter(items, D)| == |items|
    decreases |items|
  {
    if items != [] {
      FilterPartition(items[1..]);
    }
  }

  /**
   * Filtering keeps the input order: a list filters to the filtering of its parts, in
   * the same order, and a single record stays exactly when it has the change type.
   * Together the two fix the result for every input.
   */
  lemma {:induction false} FilterAppend(a: seq<Difference>, b: seq<Difference>, t: ChangeType)
    ensures Filter(a + b, t) == Filter(a, t) + Filter(b, t)
    decreases |a|
  {
    if a != [] {
      assert (a + b)[0] == a[0] && (a + b)[1..] == a[1..] + b;
      FilterAppend(a[1..], b, t);
    } else {
      assert a + b == b;
    }
  }

  lemma FilterSingle(x: Difference, t: ChangeType)
    ensures Filter([x], t) == if x.changeType == t then [x] else []
  {
    assert [x][1..] == [];
  }

  /** The sentinel: an empty list of paths becomes "NoChanges", anything else is kept. */
  function OrNoChanges(s: string): (r: string)
    ensures r != ""
    ensures s != "" ==> r == s
  {
    if s == "" then NoChanges else s
  }

  /** One page of a get_differences listing. */
  datatype Page = Page(differences: Option<seq<Difference>>, nextToken: Option<string>)

  /** The arguments of one get_differences call. */
  datatype Request = Request(repositoryName: string, beforeCommitSpecifier: Option<string>,
                             afterCommitSpecifier: string, nextToken: Option<string>)

  /** Python truthiness of an optional commit specifier: None and "" are false. */
  predicate Truthy(s: Option<string>) {
    s.Some? && s.value != ""
  }

  /** A response after which the loop stops: a failure, or a page without nextToken. */
  predicate Last(r: Result<Page, Error>) {
    r.Failure? || r.value.nextToken.None?
  }

  /** The listing ends: some response in the sequence stops the loop. */
  predicate Ends(responses: seq<Result<Page, Error>>) {
    exists n :: 0 <= n < |responses| && Last(responses[n])
  }

  /** The index of the response that stops the loop. */
  function FirstLast(responses: seq<Result<Page, Error>>): (n: nat)
    requires Ends(responses)
    ensures n < |responses| && Last(responses[n])
    ensures forall k :: 0 <= k < n ==> !Last(responses[k])
    decreases |responses|
  {
    if Last(responses[0]) then 0
    else
      assert Ends(responses[1..]) by {
        var n :| 0 <= n < |responses| && Last(responses[n]);
        assert responses[1..][n - 1] == responses[n];
      }
      1 + FirstLast(responses[1..])
  }

  /** The differences a page contributes; a later page without the key contributes none. */
  function PageDifferences(p: Page): seq<Difference> {
    if p.differences.Some? then p.differences.value else []
  }

  /** The differences of responses 0 to k, in page order. */
  function Collected(responses: seq<Result<Page, Error>>, k: nat): seq<Difference>
    requires k < |responses|
    requires forall j :: 0 <= j <= k ==> responses[j].Success?
  {
    (if k == 0 then [] else Collected(responses, k - 1)) + PageDifferences(responses[k].value)
  }

  /**
   * What get_file_changes returns: the first response must succeed and carry the
   * differences key; then every page up to the one without nextToken is collected,
   * and a failing later page fails the whole listing.
   */
  function FileChanges(responses: seq<Result<Page, Error>>): Result<seq<Difference>, Error>
    requires Ends(responses)
  {
    var n := FirstLast(responses);
    if responses[0].Failure? then Failure(responses[0].error)
    else if responses[0].value.differences.None? then Failure(KeyError("differences"))
    else if responses[n].Failure? then Failure(responses[n].error)
    else Success(Collected(responses, n))
  }

  /** The before commit specifier sent: omitted when the given one is falsy. */
  function SentBefore(before: Option<string>): Option<string> {
    if Truthy(before) then before else None
  }

  /**
   * get_file_changes: one request, then one more per nextToken, each carrying the
   * previous page's token; `responses[k]` is what the k-th request receives.
   */
  method GetFileChanges(repositoryName: string, before: Option<string>, after: string,
                        responses: seq<Result<Page, Error>>)
    returns (r: Result<seq<Difference>, Error>, requests: seq<Request>)
    requires Ends(responses)
    ensures r == FileChanges(responses)
    ensures |requests| ==
      if responses[0].Success? && responses[0].value.differences.None? then 1 else FirstLast(responses) + 1
    ensures forall k :: 0 <= k < |requests| ==>
      requests[k] == Request(repositoryName, SentBefore(before), after,
                             if k == 0 then None else responses[k - 1].value.nextToken)
  {
    var sentBefore := if Truthy(before) then before else None;
    requests := [Request(repositoryName, sentBefore, after, None)];
    var response := responses[0];
    if response.Failure? {
      return Failure(response.error), requests;
    }
    if response.value.differences.None? {
      return Failure(KeyError("differences")), requests;
    }
    r, requests := FollowPages(repositoryName, sentBefore, after, responses, requests);
  }

  /** The requests for pages 0 to k: each after the first carries the previous page's nextToken. */
  function PageRequests(repositoryName: string, sentBefore: Option<string>, after: string,
                        responses: seq<Result<Page, Error>>, k: nat): (r: seq<Request>)
    requires k < |responses| && forall j :: 0 <= j < k ==> responses[j].Success?
    ensures |r| == k + 1
    ensures forall j :: 0 <= j <= k ==>
      r[j] == Request(repositoryName, sentBefore, after, if j == 0 then None else responses[j - 1].value.nextToken)
  {
    if k == 0 then [Request(repositoryName, sentBefore, after, None)]
    else PageRequests(repositoryName, sentBefore, after, responses, k - 1)
         + [Request(repositoryName, sentBefore, after, responses[k - 1].value.nextToken)]
  }

  /**
   * The loop of get_file_changes, once the first page has come back with the
   * differences key: request the next page while the last one carried a nextToken.
   */
  method FollowPages(repositoryName: string, sentBefore: Option<string>, after: string,
                     responses: seq<Result<Page, Error>>, first: seq<Request>)
    returns (r: Result<seq<Difference>, Error>, requests: seq<Request>)
    requires Ends(responses) && responses[0].Success? && responses[0].value.differences.Some?
    requires first == [Request(repositoryName, sentBefore, after, None)]
    ensures r == FileChanges(responses)
    ensures |requests| == FirstLast(responses) + 1
    ensures forall k :: 0 <= k < |requests| ==>
      requests[k] == Request(repositoryName, sentBefore, after, if k == 0 then None else responses[k - 1].value.nextToken)
  {
    ghost var n := FirstLast(responses);
    requests := first;
    var response := responses[0];
    var differences := response.value.differences.value;
    var k := 0;
    while response.value.nextToken.Some?
      invariant 0 <= k <= n
      invariant response == responses[k] && response.Success?
      invariant forall j :: 0 <= j <= k ==> responses[j].Success?
      invariant requests == PageRequests(repositoryName, sentBefore, after, responses, k)
      invariant differences == Collected(responses, k)
      decreases n - k
    {
      requests := requests + [Request(repositoryName, sentBefore, after, response.value.nextToken)];
      k := k + 1;
      response := responses[k];
      if response.Failure? {
        assert Last(responses[k]) && k == n;
        return Failure(response.error), requests;
      }
      differences := differences + PageDifferences(response.value);
    }
    assert Last(responses[k]) && k == n;
    return Success(differences), requests;
  }

  /** get_previous_commit_id: the first parent, None when there is none or get_commit failed. */
  function PreviousCommitId(parents: Result<seq<string>, Error>): (r: Option<string>)
    ensures r.Some? <==> parents.Success? && |parents.value| > 0
    ensures r.Some? ==> r.value == parents.value[0]
  {
    if parents.Success? && |parents.value| > 0 then Some(parents.value[0]) else None
  }

  /** The output variables handed to the pipeline. */
  datatype OutputVariables = OutputVariables(
    addedFiles: string, modifiedFiles: string, deletedFiles: string, jobId: string,
    beforeCommit: Option<string>, afterCommit: string, commitId: string)

  datatype JobResult = JobSuccess(outputVariables: OutputVariables) | JobFailure(error: Error)

  /** The before commit get_changes uses: the given one if truthy, else the resolved parent. */
  function ResolvedBefore(before: Option<string>, parents: Result<seq<string>, Error>): Option<string> {
    if Truthy(before) then before else PreviousCommitId(parents)
  }

  /**
   * get_changes: resolve the before commit, drain the listing, classify it into the three
   * path strings with the sentinel, and report success or failure to the pipeline.
   * `parents` stands for the get_commit lookup of the after commit.
   */
  method GetChanges(jobId: string, repositoryName: string, beforeCommit: Option<string>, afterCommit: string,
                    parents: Result<seq<string>, Error>, responses: seq<Result<Page, Error>>)
    returns (job: JobResult, requests: seq<Request>)
    requires Ends(responses)
    ensures |requests| >= 1
    ensures forall k :: 0 <= k < |requests| ==>
      requests[k].beforeCommitSpecifier == SentBefore(ResolvedBefore(beforeCommit, parents))
    ensures FileChanges(responses).Failure? ==> job == JobFailure(FileChanges(responses).error)
    ensures job.JobSuccess? <==>
      && FileChanges(responses).Success?
      && Concatenated(FileChanges(responses).value, A).Success?
      && Concatenated(FileChanges(responses).value, M).Success?
      && Concatenated(FileChanges(responses).value, D).Success?
    ensures job.JobSuccess? ==>
      var v := job.outputVariables;
      var diffs := FileChanges(responses).value;
      && v.addedFiles == OrNoChanges(Concatenated(diffs, A).value)
      && v.modifiedFiles == OrNoChanges(Concatenated(diffs, M).value)
      && v.deletedFiles == OrNoChanges(Concatenated(diffs, D).value)
      && v.jobId == jobId
      && v.beforeCommit == ResolvedBefore(beforeCommit, parents)
      && v.afterCommit == afterCommit && v.commitId == afterCommit
  {
    var before := beforeCommit;
    if !Truthy(before) {
      before := PreviousCommitId(parents);
    }
    var differences;
    differences, requests := GetFileChanges(repositoryName, before, afterCommit, responses);
    if differences.Failure? {
      return JobFailure(differences.error), requests;
    }
    var added := GetChangesConcatenated(differences.value, A);
    if added.Failure? {
      return JobFailure(added.error), requests;
    }
    var addedFiles := OrNoChanges(added.value);
    var updated := GetChangesConcatenated(differences.value, M);
    if updated.Failure? {
      return JobFailure(updated.error), requests;
    }
    var modifiedFiles := OrNoChanges(updated.value);
    var deleted := GetChangesConcatenated(differences.value, D);
    if deleted.Failure? {
      return JobFailure(deleted.error), requests;
    }
    var deletedFiles := OrNoChanges(deleted.value);
    job := JobSuccess(OutputVariables(addedFiles, modifiedFiles, deletedFiles, jobId, before, afterCommit, afterCommit));
  }
}
