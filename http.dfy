/** The replies the route handlers send: a status code with a JSON body, or an error thrown out of the handler. */
module Http {
  import opened Wrappers
  import opened Salary

  /** The JSON bodies the handlers send. */
  datatype Body =
    | ApiKey(username: string, apiKey: string)
    | CredentialsError(username: string, error: string)
    | SalaryRecord(record: SalaryInformation)
    | Deletion(id: int, deleted: bool)
    /** `reply.send(result[0])`: the overall statistics row, absent when the query returned no row. */
    | Statistics(stats: Option<SalaryStatistics>)
    | DepartmentStatistics(departments: seq<SalaryStatisticsPerDepartment>)
    | SubDepartmentStatistics(subDepartments: seq<SalaryStatisticsPerDepartmentAndSubDepartment>)

  /** What a handler does with a request: `reply.code(status).send(body)`, or an exception it lets escape. */
  datatype Response = Reply(status: int, body: Body) | Thrown(error: string)

  /** The status `reply.send` uses when the handler sets none. */
  const DefaultStatus := 200
}
