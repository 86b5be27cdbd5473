/** The route that deletes a salary record by id (routes/delete-salary.route.ts). */
module DeleteSalaryRoute {
  import opened Salary
  import opened Http

  /**
   * `deleteSalaryHandler`, given the number of rows the delete removed:
   * 200 when a row went, 410 when none did, and the body echoes the id.
   */
  function DeleteSalaryHandler(id: int, deletedRowCount: nat): (issued: Issued<Response>)
    ensures issued.call == Delete(Table, id)
    ensures issued.result.Reply?
    ensures issued.result.status == 200 <==> deletedRowCount != 0
    ensures issued.result.status == 410 <==> deletedRowCount == 0
    ensures issued.result.body == Deletion(id, deletedRowCount != 0)
  {
    var removed := RemoveSalary(id, deletedRowCount);
    Issued(removed.call, Reply(if removed.result then 200 else 410, Deletion(id, removed.result)))
  }

  /** The `deleted` flag of the body always agrees with the status. */
  lemma DeletedAgreesWithStatus(id: int, deletedRowCount: nat)
    ensures var response := DeleteSalaryHandler(id, deletedRowCount).result;
      response.body.deleted <==> response.status == 200
  {
  }
}
