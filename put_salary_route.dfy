/** The route that adds a salary record (routes/put-salary.route.ts). */
module PutSalaryRoute {
  import opened Wrappers
  import opened Strings
  import opened Salary
  import opened Http

  /**
   * The request body of `PUT /salary`. `otherFields` stands for any property
   * beyond the six the handler names.
   */
  datatype AddSalaryPayload = AddSalaryPayload(
    name: string,
    salary: real,
    currency: string,
    onContract: Option<bool>,
    department: string,
    subDepartment: string,
    otherFields: map<string, string>)

  /** `Boolean(payload.on_contract)`: an absent flag is `false`. */
  function ContractFromPayload(onContract: Option<bool>): (b: bool)
    ensures onContract.None? ==> !b
    ensures onContract.Some? ==> b == onContract.value
  {
    onContract == Some(true)
  }

  /** The record the handler passes to `addSalary`: the six named fields, with `currency` uppercased. */
  function SalaryFromPayload(payload: AddSalaryPayload): (info: SalaryInformation)
    ensures info.id.None?
    ensures info.currency == Upper(payload.currency)
    ensures info.onContract == ContractFromPayload(payload.onContract)
    ensures info.name == payload.name && info.salary == payload.salary
    ensures info.department == payload.department && info.subDepartment == payload.subDepartment
  {
    SalaryInformation(None, payload.name, payload.salary, Upper(payload.currency),
      ContractFromPayload(payload.onContract), payload.department, payload.subDepartment)
  }

  /**
   * `addSalaryHandler`, given the row id the insert returns: the row stored
   * holds the payload with `currency` uppercased and `on_contract` as 0/1, and
   * the reply is 201 with that record and its new id.
   */
  function AddSalaryHandler(payload: AddSalaryPayload, rowId: int): (issued: Issued<Response>)
    ensures issued.call == Insert(Table, RawSalaryInformation(
      None, payload.name, payload.salary, Upper(payload.currency),
      if payload.onContract == Some(true) then 1 else 0, payload.department, payload.subDepartment))
    ensures issued.result == Reply(201, SalaryRecord(SalaryInformation(
      Some(rowId), payload.name, payload.salary, Upper(payload.currency),
      payload.onContract == Some(true), payload.department, payload.subDepartment)))
  {
    var added := AddSalary(SalaryFromPayload(payload), rowId);
    Issued(added.call, Reply(201, SalaryRecord(added.result)))
  }

  /** Properties beyond the six named ones never reach the repository or the reply. */
  lemma OtherFieldsNeverForwarded(payload: AddSalaryPayload, otherFields: map<string, string>, rowId: int)
    ensures AddSalaryHandler(payload.(otherFields := otherFields), rowId) == AddSalaryHandler(payload, rowId)
  {
  }

  /** A currency that is already upper-case is stored as it is: "usd" and "USD" store the same row. */
  lemma CurrencyCaseIsNormalised(payload: AddSalaryPayload, rowId: int)
    ensures AddSalaryHandler(payload.(currency := Upper(payload.currency)), rowId)
      == AddSalaryHandler(payload, rowId)
  {
    UpperIdempotent(payload.currency);
  }
}
