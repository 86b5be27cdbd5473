/** The route for the overall salary statistics (routes/get-salary-stats.route.ts). */
module GetSalaryStatsRoute {
  import opened Wrappers
  import opened Strings
  import opened Salary
  import opened Http

  /** The query string shared by the three statistics routes. */
  datatype StatsQuery = StatsQuery(currency: Option<string>, onContract: Option<bool>)

  /**
   * `{ currency: currency?.toUpperCase(), onContract: on_contract }`: the
   * filters the statistics handlers pass to the repository.
   */
  function QueryFilters(query: StatsQuery): (filters: SalaryFilters)
    ensures query.currency.None? ==> filters.currency.None?
    ensures query.currency.Some? ==> filters.currency == Some(Upper(query.currency.value))
    ensures filters.onContract == query.onContract
  {
    var currency := match query.currency
      case None => None
      case Some(c) => Some(Upper(c));
    SalaryFilters(currency, query.onContract)
  }

  /** Queries whose currencies agree after uppercasing ask for the same filters. */
  lemma QueryFiltersIgnoreCurrencyCase(query: StatsQuery)
    requires query.currency.Some?
    ensures QueryFilters(query.(currency := Some(Upper(query.currency.value)))) == QueryFilters(query)
  {
    UpperIdempotent(query.currency.value);
  }

  /** `getSalaryStatsHandler`, given the rows the query returns: 200 with the first row, unchanged. */
  function GetSalaryStatsHandler(query: StatsQuery, answer: seq<SalaryStatistics>): (issued: Issued<Response>)
    ensures issued.call == StatsCall(Overall, Some(QueryFilters(query)))
    ensures issued.result == Reply(DefaultStatus, Statistics(if |answer| > 0 then Some(answer[0]) else None))
  {
    Issued(StatsCall(Overall, Some(QueryFilters(query))), Reply(DefaultStatus, Statistics(First(answer))))
  }

  /** Without query parameters the plain base query is issued. */
  lemma NoQueryIssuesBaseQuery(answer: seq<SalaryStatistics>)
    ensures GetSalaryStatsHandler(StatsQuery(None, None), answer).call == Query(Overall.BaseQuery())
  {
    UnfilteredStatsQueries(Some(QueryFilters(StatsQuery(None, None))));
  }

  /** A non-empty currency is bound uppercased into `WHERE currency=@currency`. */
  lemma CurrencyQueryIsUppercased(currency: string, answer: seq<SalaryStatistics>)
    requires currency != ""
    ensures GetSalaryStatsHandler(StatsQuery(Some(currency), None), answer).call ==
      PrepareAll(Overall.BaseQuery() + " " + "WHERE currency=@currency",
        map["currency" := Str(Upper(currency))])
  {
    CurrencyFilteredStatsQueries(Some(QueryFilters(StatsQuery(Some(currency), None))));
  }

  /** An empty currency adds no clause: with no contract flag the plain query is issued. */
  lemma EmptyCurrencyIsIgnored(answer: seq<SalaryStatistics>)
    ensures GetSalaryStatsHandler(StatsQuery(Some(""), None), answer).call == Query(Overall.BaseQuery())
  {
    UnfilteredStatsQueries(Some(QueryFilters(StatsQuery(Some(""), None))));
  }
}
