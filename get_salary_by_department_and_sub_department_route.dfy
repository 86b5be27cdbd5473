/**
 * The route for the salary statistics per department and sub-department
 * (routes/get-salary-by-department-and-sub-department.route.ts).
 */
module GetSalaryByDepartmentAndSubDepartmentRoute {
  import opened Wrappers
  import opened Strings
  import opened Salary
  import opened Http
  import opened GetSalaryStatsRoute

  /**
   * `getSalaryByDepartmentAndSubDepartmentHandler`, given the rows the query
   * returns: 200 with all of them, unchanged.
   */
  function GetSalaryByDepartmentAndSubDepartmentHandler(
    query: StatsQuery, answer: seq<SalaryStatisticsPerDepartmentAndSubDepartment>)
    : (issued: Issued<Response>)
    ensures issued.call == StatsCall(ByDepartmentAndSubDepartment, Some(QueryFilters(query)))
    ensures issued.result == Reply(DefaultStatus, SubDepartmentStatistics(answer))
  {
    Issued(StatsCall(ByDepartmentAndSubDepartment, Some(QueryFilters(query))),
      Reply(DefaultStatus, SubDepartmentStatistics(answer)))
  }

  /** Without query parameters the query ends with the GROUP BY and has no WHERE. */
  lemma NoQueryIssuesGroupedQuery(answer: seq<SalaryStatisticsPerDepartmentAndSubDepartment>)
    ensures GetSalaryByDepartmentAndSubDepartmentHandler(StatsQuery(None, None), answer).call ==
      Query(ByDepartmentAndSubDepartment.BaseQuery() + " " + "GROUP BY department, sub_department")
  {
    UnfilteredStatsQueries(Some(QueryFilters(StatsQuery(None, None))));
  }

  /** A non-empty currency is bound uppercased, its clause before the GROUP BY. */
  lemma CurrencyQueryIsUppercased(currency: string, answer: seq<SalaryStatisticsPerDepartmentAndSubDepartment>)
    requires currency != ""
    ensures GetSalaryByDepartmentAndSubDepartmentHandler(StatsQuery(Some(currency), None), answer).call ==
      PrepareAll(ByDepartmentAndSubDepartment.BaseQuery() + " " + "WHERE currency=@currency"
        + " " + "GROUP BY department, sub_department",
        map["currency" := Str(Upper(currency))])
  {
    CurrencyFilteredStatsQueries(Some(QueryFilters(StatsQuery(Some(currency), None))));
  }
}
