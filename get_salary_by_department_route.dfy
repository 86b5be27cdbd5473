/** The route for the salary statistics per department (routes/get-salary-by-department.route.ts). */
module GetSalaryByDepartmentRoute {
  import opened Wrappers
  import opened Strings
  import opened Salary
  import opened Http
  import opened GetSalaryStatsRoute

  /** `getSalaryByDepartmentHandler`, given the rows the query returns: 200 with all of them, unchanged. */
  function GetSalaryByDepartmentHandler(query: StatsQuery, answer: seq<SalaryStatisticsPerDepartment>)
    : (issued: Issued<Response>)
    ensures issued.call == StatsCall(ByDepartment, Some(QueryFilters(query)))
    ensures issued.result == Reply(DefaultStatus, DepartmentStatistics(answer))
  {
    Issued(StatsCall(ByDepartment, Some(QueryFilters(query))), Reply(DefaultStatus, DepartmentStatistics(answer)))
  }

  /** Without query parameters the base query grouped by department is issued. */
  lemma NoQueryIssuesGroupedQuery(answer: seq<SalaryStatisticsPerDepartment>)
    ensures GetSalaryByDepartmentHandler(StatsQuery(None, None), answer).call ==
      Query(ByDepartment.BaseQuery() + " " + "GROUP BY department")
  {
    UnfilteredStatsQueries(Some(QueryFilters(StatsQuery(None, None))));
  }

  /** A non-empty currency is bound uppercased, its clause before the GROUP BY. */
  lemma CurrencyQueryIsUppercased(currency: string, answer: seq<SalaryStatisticsPerDepartment>)
    requires currency != ""
    ensures GetSalaryByDepartmentHandler(StatsQuery(Some(currency), None), answer).call ==
      PrepareAll(ByDepartment.BaseQuery() + " " + "WHERE currency=@currency" + " " + "GROUP BY department",
        map["currency" := Str(Upper(currency))])
  {
    CurrencyFilteredStatsQueries(Some(QueryFilters(StatsQuery(Some(currency), None))));
  }
}
