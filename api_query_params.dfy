/**
 * List query parameters (services/product-service/internal/infrastructure/api/query_params.go):
 * defaults, parsing of the URL query, and the offset and limit a page request turns into.
 *
 * The query arrives already parsed, as Go's `url.Values`: a map from each key to its values in
 * order. `Get` on it is `QueryGet`.
 */
module ApiQueryParams {
  import opened Wrappers
  import opened GoInt
  import opened Strconv
  import opened Strings

  datatype Order = Asc | Desc

  /** The text an `Order` stands for. */
  function OrderText(o: Order): string {
    match o
    case Asc => "asc"
    case Desc => "desc"
  }

  datatype QueryParams = QueryParams(page: int, perPage: int, sort: string, order: Order, filter: map<string, string>)

  /** `DefaultParams`: page 1 of 10 items, sorted by "id" ascending, no filter. */
  function DefaultParams(): (p: QueryParams)
    ensures p.page == 1 && p.perPage == 10 && p.sort == "id" && p.order == Asc && p.filter == map[]
  {
    QueryParams(1, 10, "id", Asc, map[])
  }

  /** `url.Values.Get`: the first value for `key`, or "" when there is none. */
  function QueryGet(q: map<string, seq<string>>, key: string): string {
    if key in q && |q[key]| > 0 then q[key][0] else ""
  }

  /** The page number or page size a query value sets: a positive `int`, or else `fallback`. */
  function PositiveOr(s: string, fallback: int): int {
    if s != "" && Atoi(s).Some? && Atoi(s).value > 0 then Atoi(s).value else fallback
  }

  /** The filter a query makes: every key with at least one value, its values joined with ",". */
  function FilterOf(q: map<string, seq<string>>): map<string, string> {
    map k | k in q && |q[k]| >= 1 :: Join(q[k], ",")
  }

  /** The parameters `ParseQueryParams` extracts from query `q`. */
  function ParamsOf(q: map<string, seq<string>>): QueryParams {
    var sort := QueryGet(q, "sort");
    var order := QueryGet(q, "order");
    QueryParams(
      PositiveOr(QueryGet(q, "page"), 1),
      PositiveOr(QueryGet(q, "perPage"), 10),
      if sort != "" then sort else "id",
      if order == "asc" then Asc else if order == "desc" then Desc else Asc,
      FilterOf(q))
  }

  /**
   * `ParseQueryParams`: the defaults, overridden field by field by the query, then one filter
   * entry per key of the query, visited in no particular order.
   */
  method ParseQueryParams(q: map<string, seq<string>>) returns (param: QueryParams)
    ensures param == ParamsOf(q)
  {
    param := DefaultParams();
    var page := QueryGet(q, "page");
    if page != "" {
      var p := Atoi(page);
      if p.Some? && p.value > 0 {
        param := param.(page := p.value);
      }
    }
    var perPage := QueryGet(q, "perPage");
    if perPage != "" {
      var p := Atoi(perPage);
      if p.Some? && p.value > 0 {
        param := param.(perPage := p.value);
      }
    }
    var sort := QueryGet(q, "sort");
    if sort != "" {
      param := param.(sort := sort);
    }
    var order := QueryGet(q, "order");
    if order == "asc" || order == "desc" {
      param := param.(order := if order == "asc" then Asc else Desc);
    }
    var filter := FilterFrom(q);
    param := param.(filter := filter);
  }

  /** The filter loop of `ParseQueryParams`, which fills the default (empty) filter. */
  method FilterFrom(q: map<string, seq<string>>) returns (filter: map<string, string>)
    ensures filter == FilterOf(q)
  {
    filter := map[];
    var keys := q.Keys;
    ghost var done: set<string> := {};
    while keys != {}
      invariant keys !! done && keys + done == q.Keys
      invariant forall k :: k in filter <==> k in done && |q[k]| >= 1
      invariant forall k | k in filter :: filter[k] == Join(q[k], ",")
      decreases |keys|
    {
      var key :| key in keys;
      if key !in filter {
        var values := q[key];
        if |values| > 1 {
          filter := filter[key := Join(values, ",")];
        } else if |values| == 1 {
          filter := filter[key := values[0]];
        }
      }
      keys := keys - {key};
      done := done + {key};
    }
  }

  /** An empty query gives exactly the defaults. */
  lemma EmptyQueryIsDefault()
    ensures ParamsOf(map[]) == DefaultParams()
  {
    assert FilterOf(map[]) == map[];
  }

  /**
   * Page and page size are at least 1, and a query value replaces the default exactly when it is a
   * positive integer: page and size are always in the 64-bit range.
   */
  lemma PageAndSizePositive(q: map<string, seq<string>>)
    ensures ParamsOf(q).page >= 1 && ParamsOf(q).perPage >= 1
    ensures InInt64(ParamsOf(q).page) && InInt64(ParamsOf(q).perPage)
    ensures ParamsOf(q).page != 1 ==> Atoi(QueryGet(q, "page")) == Some(ParamsOf(q).page)
    ensures ParamsOf(q).perPage != 10 ==> Atoi(QueryGet(q, "perPage")) == Some(ParamsOf(q).perPage)
  {
  }

  /** Every positive 64-bit page number and page size, written in decimal, is taken as is. */
  lemma PositiveValuesTaken(n: int, m: int)
    requires n > 0 && InInt64(n) && m > 0 && InInt64(m)
    ensures ParamsOf(map["page" := [Itoa(n)], "perPage" := [Itoa(m)]]).page == n
    ensures ParamsOf(map["page" := [Itoa(n)], "perPage" := [Itoa(m)]]).perPage == m
  {
    AtoiItoa(n);
    AtoiItoa(m);
    var q := map["page" := [Itoa(n)], "perPage" := [Itoa(m)]];
    assert QueryGet(q, "page") == Itoa(n) && QueryGet(q, "perPage") == Itoa(m);
  }

  /** Sort changes only for a non-empty value and order only for exactly "asc" or "desc". */
  lemma SortAndOrder(q: map<string, seq<string>>)
    ensures ParamsOf(q).sort == (if QueryGet(q, "sort") == "" then "id" else QueryGet(q, "sort"))
    ensures ParamsOf(q).order == Desc <==> QueryGet(q, "order") == "desc"
    ensures QueryGet(q, "order") in {"asc", "desc"} ==> OrderText(ParamsOf(q).order) == QueryGet(q, "order")
  {
  }

  /**
   * The filter has an entry exactly for the keys with at least one value (the paging and sort keys
   * included); a single value is kept as is and several are joined with "," in order.
   */
  lemma FilterEntries(q: map<string, seq<string>>)
    ensures forall k :: k in ParamsOf(q).filter <==> k in q && |q[k]| >= 1
    ensures forall k | k in q && |q[k]| == 1 :: ParamsOf(q).filter[k] == q[k][0]
    ensures forall k | k in q && |q[k]| > 1 :: ParamsOf(q).filter[k] == q[k][0] + "," + Join(q[k][1..], ",")
  {
  }

  /**
   * `GetOffset` as written: `(Page - 1) * PerPage` in Go's 64-bit `int`, which wraps around when
   * the product does not fit.
   */
  function GetOffsetAsWritten(p: QueryParams): (offset: int)
    ensures InInt64(offset)
    ensures InInt64((p.page - 1) * p.perPage) ==> offset == (p.page - 1) * p.perPage
  {
    Wrap64((p.page - 1) * p.perPage)
  }

  /**
   * Every page number above 2^62 that `ParseQueryParams` accepts, with a page size of 2, makes the
   * offset as written negative.
   */
  lemma OffsetAsWrittenGoesNegative(page: int)
    requires 0x4000_0000_0000_0000 < page <= MaxInt64
    ensures ParamsOf(map["page" := [Itoa(page)], "perPage" := [Itoa(2)]]).page == page
    ensures ParamsOf(map["page" := [Itoa(page)], "perPage" := [Itoa(2)]]).perPage == 2
    ensures GetOffsetAsWritten(ParamsOf(map["page" := [Itoa(page)], "perPage" := [Itoa(2)]])) < 0
  {
    var q := map["page" := [Itoa(page)], "perPage" := [Itoa(2)]];
    AtoiItoa(page);
    AtoiItoa(2);
    assert QueryGet(q, "page") == Itoa(page) && QueryGet(q, "perPage") == Itoa(2);
    var x := (page - 1) * 2;
    assert TwoTo64 / 2 <= x < TwoTo64;
    assert Wrap64(x) == x - TwoTo64;
  }

  /** The corrected, exact offset `(Page - 1) * PerPage`; the list handler uses `GetOffsetAsWritten`, as the Go code does. */
  function GetOffset(p: QueryParams): int {
    (p.page - 1) * p.perPage
  }

  /** `GetLimit`: the page size. */
  function GetLimit(p: QueryParams): int {
    p.perPage
  }

  /**
   * For parsed parameters the offset is never negative and counts the items on the pages before
   * this one, and the limit is the page size, so offset and limit together reach the end of the page.
   */
  lemma OffsetAndLimit(q: map<string, seq<string>>)
    ensures var p := ParamsOf(q);
            && GetOffset(p) >= 0
            && GetLimit(p) == p.perPage >= 1
            && GetOffset(p) + GetLimit(p) == p.page * p.perPage
  {
    var p := ParamsOf(q);
    PageAndSizePositive(q);
    PagesBefore(p.page, p.perPage);
  }

  lemma PagesBefore(page: int, size: int)
    requires page >= 1 && size >= 1
    ensures (page - 1) * size >= 0 && (page - 1) * size + size == page * size
  {
    assert (page - 1) * size + size == (page - 1 + 1) * size;
  }
}
