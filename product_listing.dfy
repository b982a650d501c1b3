/**
 * list_products_for_portfolio, which both catalog lambdas share: one
 * search_products_as_admin call, then the ids and the formatted names of the
 * portfolio's products, position by position.
 */
module ProductListing {
  import opened Wrappers
  import opened Normalizer
  import opened Catalog

  /** The formatted form of every name, position by position. */
  function Keys(names: seq<string>): seq<string> {
    seq(|names|, i requires 0 <= i < |names| => Normalize(names[i]))
  }

  function ViewIds(views: seq<ProductView>): seq<Id> {
    seq(|views|, i requires 0 <= i < |views| => views[i].id)
  }

  function ViewNames(views: seq<ProductView>): seq<string> {
    seq(|views|, i requires 0 <= i < |views| => views[i].name)
  }

  /** The listing: the new state, and the ids with the formatted names, or the search's error. */
  function ListProductsRun(s: State, portfolioId: string): (State, Result<(seq<Id>, seq<string>), Error>) {
    var (s1, reply) := Exec(s, SearchProductsAsAdmin(portfolioId));
    if reply.Failed? then (s1, Failure(Sdk(reply.error)))
    else (s1, Success((ViewIds(ListedViews(reply)), Keys(ViewNames(ListedViews(reply))))))
  }

  /** Some product of the portfolio has this id and, once formatted, this name. */
  ghost predicate Describes(products: seq<Product>, portfolioId: string, id: Id, key: string) {
    exists p :: p in products && portfolioId in p.portfolios && p.id == id && key == Normalize(p.name)
  }

  /**
   * The listing makes exactly one call and changes nothing else. When the search succeeds
   * it holds the first page of the portfolio's products, in catalog order: the two lists
   * have the same length, position i of both describes the same product of the
   * portfolio, and every listed name is already in formatted form. Only when the
   * portfolio fits in one page is every one of its products listed.
   */
  lemma ListProductsSpec(s: State, portfolioId: string)
    ensures var (s', r) := ListProductsRun(s, portfolioId);
      && s' == s.(log := s.log + [SearchProductsAsAdmin(portfolioId)])
      && (r.Failure? <==> SearchProductsAsAdmin(portfolioId) in s.faults)
      && (r.Success? ==>
        var (ids, names) := r.value;
        && ids == ViewIds(ProductPage(s, portfolioId))
        && |ids| == |names| && |ids| <= s.pageSize
        && (forall i :: 0 <= i < |ids| ==> Describes(s.products, portfolioId, ids[i], names[i]))
        && (|Views(s.products, portfolioId)| <= s.pageSize ==>
              forall p :: p in s.products && portfolioId in p.portfolios ==>
                exists i :: 0 <= i < |ids| && ids[i] == p.id && names[i] == Normalize(p.name))
        && (forall i :: 0 <= i < |names| ==> Normalize(names[i]) == names[i]))
  {
    var (s', r) := ListProductsRun(s, portfolioId);
    if r.Success? {
      var all := Views(s.products, portfolioId);
      var views := ProductPage(s, portfolioId);
      var (ids, names) := r.value;
      ViewsOfPortfolio(s.products, portfolioId);
      assert ids == ViewIds(views) && names == Keys(ViewNames(views));
      forall i | 0 <= i < |ids|
        ensures Describes(s.products, portfolioId, ids[i], names[i])
      {
        assert views[i] == all[i];
        assert all[i] in all;
        var p :| p in s.products && portfolioId in p.portfolios && all[i] == ProductView(p.id, p.name);
        assert p.id == ids[i] && names[i] == Normalize(p.name);
      }
      if |all| <= s.pageSize {
        forall p | p in s.products && portfolioId in p.portfolios
          ensures exists i :: 0 <= i < |ids| && ids[i] == p.id && names[i] == Normalize(p.name)
        {
          var i :| 0 <= i < |views| && views[i] == ProductView(p.id, p.name);
          assert ids[i] == p.id;
        }
      }
      forall i | 0 <= i < |names|
        ensures Normalize(names[i]) == names[i]
      {
        NormalizeIdempotent(views[i].name);
      }
    }
  }

  /** A search that does not fail lists the ids of the first page, in order. */
  lemma ListProductsPage(s: State, portfolioId: string)
    requires SearchProductsAsAdmin(portfolioId) !in s.faults
    ensures var (s', r) := ListProductsRun(s, portfolioId);
      && s' == s.(log := s.log + [SearchProductsAsAdmin(portfolioId)])
      && r.Success? && r.value.0 == ViewIds(ProductPage(s, portfolioId))
  {
    ListProductsSpec(s, portfolioId);
  }

  /**
   * A portfolio with more products than a page holds: the product right after the first
   * page is missing from the listing, so the lambdas never see it.
   */
  lemma ListProductsMissesLaterPages(s: State, portfolioId: string)
    requires |Views(s.products, portfolioId)| > s.pageSize
    requires var all := Views(s.products, portfolioId);
      forall a, b :: 0 <= a < b < |all| ==> all[a].id != all[b].id
    ensures var r := ListProductsRun(s, portfolioId).1;
      r.Success? ==> Views(s.products, portfolioId)[s.pageSize].id !in r.value.0
  {
    PageMissesNext(Views(s.products, portfolioId), s.pageSize);
  }

  /** With distinct ids, the entry right after the first page is not on it. */
  lemma PageMissesNext(views: seq<ProductView>, size: nat)
    requires |views| > size
    requires forall a, b :: 0 <= a < b < |views| ==> views[a].id != views[b].id
    ensures views[size].id !in ViewIds(FirstPage(views, size))
  {
    var page := FirstPage(views, size);
    forall i | 0 <= i < |page|
      ensures ViewIds(page)[i] != views[size].id
    {
      assert page[i] == views[i];
    }
  }

  /** Formats every name in turn. */
  method FormatAll(names: seq<string>) returns (formatted: seq<string>)
    ensures formatted == Keys(names)
  {
    formatted := [];
    for i := 0 to |names|
      invariant |formatted| == i
      invariant forall k :: 0 <= k < i ==> formatted[k] == Normalize(names[k])
    {
      var f := EscapeAndLower(names[i]);
      formatted := formatted + [f];
    }
  }

  /** list_products_for_portfolio */
  method ListProductsForPortfolio(sc: Client, portfolioId: string) returns (r: Result<(seq<Id>, seq<string>), Error>)
    modifies sc
    ensures (sc.Snapshot(), r) == ListProductsRun(old(sc.Snapshot()), portfolioId)
  {
    var reply := sc.Invoke(SearchProductsAsAdmin(portfolioId));
    if reply.Failed? {
      return Failure(Sdk(reply.error));
    }
    var ids, names := CollectViews(ListedViews(reply));
    var formatted := FormatAll(names);
    return Success((ids, formatted));
  }

  /** The loop over the search result: the id and the raw name of each product, in order. */
  method CollectViews(views: seq<ProductView>) returns (ids: seq<Id>, names: seq<string>)
    ensures ids == ViewIds(views) && names == ViewNames(views)
  {
    ids, names := [], [];
    for i := 0 to |views|
      invariant |ids| == |names| == i
      invariant forall k :: 0 <= k < i ==> ids[k] == views[k].id && names[k] == views[k].name
    {
      ids := ids + [views[i].id];
      names := names + [views[i].name];
    }
  }
}
