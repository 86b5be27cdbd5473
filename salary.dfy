/**
 * The salary repository (models/salary.ts): the `salaries` table's records,
 * the filters of the statistics queries, and the repository operations.
 *
 * The database helper is an oracle. Each operation states the one call it
 * makes on the helper (`DbCall`) and receives the helper's answer to that
 * call as a parameter: the row id an insert returns, the number of rows a
 * delete removed, or the rows a query returned.
 */
module Salary {
  import opened Wrappers
  import Strings

  /** A salary record as the application sees it; `id` is absent on the input side of an insert. */
  datatype SalaryInformation = SalaryInformation(
    id: Option<int>,
    name: string,
    salary: real,
    currency: string,
    onContract: bool,
    department: string,
    subDepartment: string)

  /** A salary record as the table holds it: `on_contract` is an integer column. */
  datatype RawSalaryInformation = RawSalaryInformation(
    id: Option<int>,
    name: string,
    salary: real,
    currency: string,
    onContract: int,
    department: string,
    subDepartment: string)

  /** One row of the overall statistics query. */
  datatype SalaryStatistics = SalaryStatistics(avg: real, max: real, min: real)

  /** One row of the statistics grouped by department. */
  datatype SalaryStatisticsPerDepartment =
    SalaryStatisticsPerDepartment(department: string, avg: real, max: real, min: real)

  /** One row of the statistics grouped by department and sub-department. */
  datatype SalaryStatisticsPerDepartmentAndSubDepartment =
    SalaryStatisticsPerDepartmentAndSubDepartment(
      department: string, subDepartment: string, avg: real, max: real, min: real)

  /** The optional filters of a statistics query. */
  datatype SalaryFilters = SalaryFilters(currency: Option<string>, onContract: Option<bool>)

  /** A value bound to a named parameter of a prepared statement. */
  datatype ParamValue = Str(text: string) | Number(number: int)

  /** The parameters of a prepared statement, by name (without the `@`). */
  type Params = map<string, ParamValue>

  /** A call the repository makes on the database helper. */
  datatype DbCall =
    | Insert(table: string, row: RawSalaryInformation)
    | Delete(table: string, rowid: int)
    | Query(sql: string)
    | PrepareAll(sql: string, params: Params)

  /** What a repository operation did: the database call it issued and the value it returned. */
  datatype Issued<T> = Issued(call: DbCall, result: T)

  const Table := "salaries"

  // ---------------------------------------------------------------------------
  // Boolean <-> integer coercion of `on_contract`
  // ---------------------------------------------------------------------------

  /** `b ? 1 : 0`: how a boolean is stored in an integer column or bound to a parameter. */
  function ContractFlag(b: bool): (n: int)
    ensures n == 0 || n == 1
    ensures b <==> n == 1
  {
    if b then 1 else 0
  }

  /** `{ ...info, on_contract: info.on_contract ? 1 : 0 }`: the row an insert stores. */
  function EncodeRow(info: SalaryInformation): (row: RawSalaryInformation)
    ensures row.onContract == 0 || row.onContract == 1
    ensures row.onContract == 1 <==> info.onContract
    ensures row.(onContract := 0) == RawSalaryInformation(
      info.id, info.name, info.salary, info.currency, 0, info.department, info.subDepartment)
  {
    RawSalaryInformation(info.id, info.name, info.salary, info.currency,
      ContractFlag(info.onContract), info.department, info.subDepartment)
  }

  /** `{ ...row, on_contract: Boolean(row.on_contract) }`: the record a stored row is read back as. */
  function DecodeRow(row: RawSalaryInformation): (info: SalaryInformation)
    ensures info.onContract <==> row.onContract != 0
    ensures info.(onContract := false) == SalaryInformation(
      row.id, row.name, row.salary, row.currency, false, row.department, row.subDepartment)
  {
    SalaryInformation(row.id, row.name, row.salary, row.currency,
      row.onContract != 0, row.department, row.subDepartment)
  }

  /** Storing a record and reading it back loses nothing: `true` -> 1 -> `true`, `false` -> 0 -> `false`. */
  lemma DecodeEncodeRow(info: SalaryInformation)
    ensures DecodeRow(EncodeRow(info)) == info
  {
  }

  // ---------------------------------------------------------------------------
  // addSalary, removeSalary, getAllSalaries
  // ---------------------------------------------------------------------------

  /**
   * `addSalary`: inserts the record with `on_contract` stored as 0/1 and
   * returns `Object.assign({ id: rowId }, info)`, so an `id` already present
   * in the input takes precedence over the returned row id.
   */
  function AddSalary(info: SalaryInformation, rowId: int): (issued: Issued<SalaryInformation>)
    ensures issued.call == Insert(Table, EncodeRow(info))
    ensures issued.result.(id := info.id) == info
    ensures info.id.None? ==> issued.result.id == Some(rowId)
    ensures info.id.Some? ==> issued.result.id == info.id
  {
    var returned := if info.id.Some? then info else info.(id := Some(rowId));
    Issued(Insert(Table, EncodeRow(info)), returned)
  }

  /**
   * What `addSalary` returns is what reading the inserted row back (with the
   * row id the insert produced) yields: `on_contract` survives the round trip.
   */
  lemma AddedRecordReadsBack(info: SalaryInformation, rowId: int)
    requires info.id.None?
    ensures var issued := AddSalary(info, rowId);
      DecodeRow(issued.call.row.(id := Some(rowId))) == issued.result
  {
  }

  /** `removeSalary`: deletes by `{ rowid }` and reports whether any row was removed. */
  function RemoveSalary(rowId: int, deletedRowCount: nat): (issued: Issued<bool>)
    ensures issued.call == Delete(Table, rowId)
    ensures issued.result <==> deletedRowCount != 0
  {
    Issued(Delete(Table, rowId), deletedRowCount != 0)
  }

  const AllSalariesQuery := "SELECT ROWID as id, * FROM salaries"

  /** `rows.map(...)` converting every stored row back to a record. */
  function DecodeRows(rows: seq<RawSalaryInformation>): (infos: seq<SalaryInformation>)
    ensures |infos| == |rows|
    ensures forall i :: 0 <= i < |rows| ==> infos[i] == DecodeRow(rows[i])
  {
    if rows == [] then [] else [DecodeRow(rows[0])] + DecodeRows(rows[1..])
  }

  /**
   * `getAllSalaries`: one plain query; the rows come back in the same number
   * and order, each changed only in `on_contract` (0 -> false, otherwise true).
   */
  function GetAllSalaries(answer: seq<RawSalaryInformation>): (issued: Issued<seq<SalaryInformation>>)
    ensures issued.call == Query(AllSalariesQuery)
    ensures |issued.result| == |answer|
    ensures forall i :: 0 <= i < |answer| ==> issued.result[i] == DecodeRow(answer[i])
  {
    Issued(Query(AllSalariesQuery), DecodeRows(answer))
  }

  // ---------------------------------------------------------------------------
  // Filters: buildFilters and the WHERE clauses of the statistics queries
  // ---------------------------------------------------------------------------

  /** `filters?.currency` is truthy: the filters exist and hold a non-empty currency. */
  predicate FiltersCurrency(filters: Option<SalaryFilters>)
    ensures filters.None? ==> !FiltersCurrency(filters)
    ensures filters.Some? && filters.value.currency == Some("") ==> !FiltersCurrency(filters)
    ensures FiltersCurrency(filters) ==>
      filters.Some? && filters.value.currency.Some? && |filters.value.currency.value| > 0
  {
    filters.Some? && filters.value.currency.Some? && filters.value.currency.value != ""
  }

  /** `filters?.onContract !== undefined`: `false` counts as set. */
  predicate FiltersOnContract(filters: Option<SalaryFilters>)
    ensures filters.None? ==> !FiltersOnContract(filters)
    ensures filters.Some? && filters.value.onContract == Some(false) ==> FiltersOnContract(filters)
    ensures FiltersOnContract(filters) ==> filters.Some? && filters.value.onContract.Some?
  {
    filters.Some? && filters.value.onContract.Some?
  }

  /** The parameter map `buildFilters` produces. */
  function FilterParams(filters: Option<SalaryFilters>): (params: Params)
    ensures params.Keys <= {"currency", "onContract"}
    ensures "currency" in params <==> FiltersCurrency(filters)
    ensures "onContract" in params <==> FiltersOnContract(filters)
    ensures FiltersCurrency(filters) ==> params["currency"] == Str(filters.value.currency.value)
    ensures FiltersOnContract(filters) ==>
      params["onContract"] == Number(ContractFlag(filters.value.onContract.value))
  {
    var withCurrency: Params :=
      if FiltersCurrency(filters) then map["currency" := Str(filters.value.currency.value)] else map[];
    if FiltersOnContract(filters)
    then withCurrency["onContract" := Number(ContractFlag(filters.value.onContract.value))]
    else withCurrency
  }

  /** `buildFilters`: fills the parameter record one field at a time. */
  method BuildFilters(filters: Option<SalaryFilters>) returns (params: Params)
    ensures params == FilterParams(filters)
  {
    params := map[];
    if FiltersCurrency(filters) {
      params := params["currency" := Str(filters.value.currency.value)];
    }
    if FiltersOnContract(filters) {
      params := params["onContract" := Number(ContractFlag(filters.value.onContract.value))];
    }
  }

  /** The two clauses `WHERE <column>=@<param>` the statistics queries can push. */
  datatype WhereClause = CurrencyClause | OnContractClause
  {
    /** The column the clause compares. */
    function Column(): string
    {
      match this
      case CurrencyClause => "currency"
      case OnContractClause => "on_contract"
    }

    /** The name of the parameter the clause's `@` placeholder refers to. */
    function Param(): string
    {
      match this
      case CurrencyClause => "currency"
      case OnContractClause => "onContract"
    }

    /** The clause as the source writes it. */
    function Text(): string
    {
      match this
      case CurrencyClause => "WHERE currency=@currency"
      case OnContractClause => "WHERE on_contract=@onContract"
    }
  }

  /** Each clause text compares its column with the placeholder `@` + its parameter name. */
  lemma ClauseTextShape(clause: WhereClause)
    ensures clause.Text() == "WHERE " + clause.Column() + "=@" + clause.Param()
  {
    match clause
    case CurrencyClause =>
      assert "WHERE " + "currency" == "WHERE currency";
      assert "WHERE currency" + "=@" == "WHERE currency=@";
      assert "WHERE currency=@" + "currency" == "WHERE currency=@currency";
    case OnContractClause =>
      assert "WHERE " + "on_contract" == "WHERE on_contract";
      assert "WHERE on_contract" + "=@" == "WHERE on_contract=@";
      assert "WHERE on_contract=@" + "onContract" == "WHERE on_contract=@onContract";
  }

  /** The clauses the statistics queries push, in the order they push them. */
  function WhereClauses(filters: Option<SalaryFilters>): (clauses: seq<WhereClause>)
    ensures CurrencyClause in clauses <==> FiltersCurrency(filters)
    ensures OnContractClause in clauses <==> FiltersOnContract(filters)
    ensures |clauses| == (if FiltersCurrency(filters) then 1 else 0) + (if FiltersOnContract(filters) then 1 else 0)
    ensures |clauses| == 2 ==> clauses == [CurrencyClause, OnContractClause]
  {
    (if FiltersCurrency(filters) then [CurrencyClause] else [])
    + (if FiltersOnContract(filters) then [OnContractClause] else [])
  }

  /** The pushes onto `additionalWhereClauses` shared by the three statistics queries. */
  method CollectWhereClauses(filters: Option<SalaryFilters>) returns (clauses: seq<WhereClause>)
    ensures clauses == WhereClauses(filters)
  {
    clauses := [];
    if FiltersCurrency(filters) {
      clauses := clauses + [CurrencyClause];
    }
    if FiltersOnContract(filters) {
      clauses := clauses + [OnContractClause];
    }
  }

  /** The names of the `@` placeholders that a list of clauses mentions. */
  function Placeholders(clauses: seq<WhereClause>): set<string>
  {
    set c | c in clauses :: c.Param()
  }

  /**
   * Every placeholder of a filtered query has a bound parameter and every
   * bound parameter has a placeholder: the same two conditions drive both.
   */
  lemma PlaceholdersMatchParams(filters: Option<SalaryFilters>)
    ensures Placeholders(WhereClauses(filters)) == FilterParams(filters).Keys
  {
    var clauses := WhereClauses(filters);
    var params := FilterParams(filters);
    forall name | name in params.Keys ensures name in Placeholders(clauses) {
      if name == "currency" {
        assert CurrencyClause in clauses;
      } else {
        assert OnContractClause in clauses;
      }
    }
  }

  // ---------------------------------------------------------------------------
  // The three statistics queries
  // ---------------------------------------------------------------------------

  /** Which of the three statistics queries: overall, per department, per department and sub-department. */
  datatype Grouping = Overall | ByDepartment | ByDepartmentAndSubDepartment
  {
    function BaseQuery(): string
    {
      match this
      case Overall =>
        "SELECT AVG(salary) AS avg, MAX(salary) AS max, MIN(salary) AS min FROM salaries"
      case ByDepartment =>
        "SELECT department, AVG(salary) AS avg, MAX(salary) AS max, MIN(salary) AS min FROM salaries"
      case ByDepartmentAndSubDepartment =>
        "SELECT department, sub_department, AVG(salary) AS avg, MAX(salary) AS max, MIN(salary) AS min FROM salaries"
    }

    function GroupByClause(): Option<string>
    {
      match this
      case Overall => None
      case ByDepartment => Some("GROUP BY department")
      case ByDepartmentAndSubDepartment => Some("GROUP BY department, sub_department")
    }
  }

  /** The texts of a list of clauses, in order. */
  function Texts(clauses: seq<WhereClause>): (texts: seq<string>)
    ensures |texts| == |clauses|
    ensures forall i :: 0 <= i < |clauses| ==> texts[i] == clauses[i].Text()
  {
    if clauses == [] then [] else [clauses[0].Text()] + Texts(clauses[1..])
  }

  /**
   * The template the three statistics queries share: `base`, then a space
   * and the clauses joined with " AND " when there are any, then a space and
   * the GROUP BY clause when there is one.
   */
  function Statement(base: string, clauses: seq<WhereClause>, groupBy: Option<string>): string
  {
    var filtered :=
      if clauses == [] then base
      else base + " " + Strings.Join(Texts(clauses), " AND ");
    match groupBy
    case None => filtered
    case Some(g) => filtered + " " + g
  }

  /**
   * A statement starts with its base query, followed by the joined clauses
   * when there are any; with no clauses and no GROUP BY clause it is the base
   * query alone.
   */
  lemma StatementStartsWithBase(base: string, clauses: seq<WhereClause>, groupBy: Option<string>)
    ensures base <= Statement(base, clauses, groupBy)
    ensures clauses != [] ==> base + " " + Strings.Join(Texts(clauses), " AND ") <= Statement(base, clauses, groupBy)
    ensures clauses == [] && groupBy.None? ==> Statement(base, clauses, groupBy) == base
  {
    var filtered := base;
    if clauses != [] {
      var rest := " " + Strings.Join(Texts(clauses), " AND ");
      filtered := base + rest;
      Strings.ConcatEnds(base, rest);
    }
    if groupBy.Some? {
      var suffix := " " + groupBy.value;
      Strings.ConcatEnds(filtered, suffix);
      Strings.PrefixTransitive(base, filtered, filtered + suffix);
    }
  }

  /** A grouped statement ends with a space and its GROUP BY clause. */
  lemma StatementEndsWithGroupBy(base: string, clauses: seq<WhereClause>, groupBy: Option<string>)
    requires groupBy.Some?
    ensures Strings.EndsWith(Statement(base, clauses, groupBy), " " + groupBy.value)
  {
    var filtered :=
      if clauses == [] then base
      else base + " " + Strings.Join(Texts(clauses), " AND ");
    Strings.ConcatEnds(filtered, " " + groupBy.value);
    assert Statement(base, clauses, groupBy) == filtered + (" " + groupBy.value);
  }

  /**
   * A filtered statement is the base query, a space and the joined clauses,
   * then for a grouped query a space and its GROUP BY clause.
   */
  lemma FilteredStatement(base: string, clauses: seq<WhereClause>, groupBy: Option<string>, where: string)
    requires clauses != [] && Strings.Join(Texts(clauses), " AND ") == where
    ensures groupBy.None? ==> Statement(base, clauses, groupBy) == base + " " + where
    ensures groupBy.Some? ==> Statement(base, clauses, groupBy) == base + " " + where + " " + groupBy.value
  {
  }

  /** An unfiltered statement is the base query, then for a grouped query a space and its GROUP BY clause. */
  lemma UnfilteredStatement(base: string, groupBy: Option<string>)
    ensures groupBy.None? ==> Statement(base, [], groupBy) == base
    ensures groupBy.Some? ==> Statement(base, [], groupBy) == base + " " + groupBy.value
  {
  }

  /**
   * The SQL text of a statistics query for a grouping and a list of clauses:
   * it starts with the grouping's base query and, for a grouped query, ends
   * with its GROUP BY clause.
   */
  function StatsSql(grouping: Grouping, clauses: seq<WhereClause>): (sql: string)
    ensures grouping.BaseQuery() <= sql
    ensures grouping.GroupByClause().Some? ==> Strings.EndsWith(sql, " " + grouping.GroupByClause().value)
  {
    var base, groupBy := grouping.BaseQuery(), grouping.GroupByClause();
    StatementStartsWithBase(base, clauses, groupBy);
    if groupBy.Some? then
      StatementEndsWithGroupBy(base, clauses, groupBy);
      Statement(base, clauses, groupBy)
    else
      Statement(base, clauses, groupBy)
  }

  /**
   * The call a statistics query issues: a prepared statement bound to
   * `buildFilters(filters)` when some clause applies, a plain query otherwise.
   */
  function StatsCall(grouping: Grouping, filters: Option<SalaryFilters>): (call: DbCall)
    ensures call.Query? || call.PrepareAll?
    ensures call.PrepareAll? <==> FiltersCurrency(filters) || FiltersOnContract(filters)
    ensures call.PrepareAll? ==> call.params == FilterParams(filters)
    ensures call.Query? ==> call.sql == StatsSql(grouping, [])
  {
    var clauses := WhereClauses(filters);
    if |clauses| > 0 then PrepareAll(StatsSql(grouping, clauses), FilterParams(filters))
    else Query(StatsSql(grouping, []))
  }

  /** A filtered query issues its grouping's statement with the clauses, bound to `buildFilters(filters)`. */
  lemma PreparedStatsCall(grouping: Grouping, filters: Option<SalaryFilters>)
    requires FiltersCurrency(filters) || FiltersOnContract(filters)
    ensures StatsCall(grouping, filters) ==
      PrepareAll(Statement(grouping.BaseQuery(), WhereClauses(filters), grouping.GroupByClause()), FilterParams(filters))
  {
  }

  /** An unfiltered query issues its grouping's statement without clauses, as a plain query. */
  lemma PlainStatsCall(grouping: Grouping, filters: Option<SalaryFilters>)
    requires !FiltersCurrency(filters) && !FiltersOnContract(filters)
    ensures StatsCall(grouping, filters) == Query(Statement(grouping.BaseQuery(), [], grouping.GroupByClause()))
  {
  }

  /** The GROUP BY clause of each grouped query, as the source writes it. */
  lemma GroupByTexts()
    ensures Overall.GroupByClause() == None
    ensures ByDepartment.GroupByClause() == Some("GROUP BY department")
    ensures ByDepartmentAndSubDepartment.GroupByClause() == Some("GROUP BY department, sub_department")
  {
  }

  /** `result[0]`: the first row, or `undefined` when there is none. */
  function First<T>(rows: seq<T>): (r: Option<T>)
    ensures r.Some? <==> |rows| > 0
    ensures r.Some? ==> r.value == rows[0]
  {
    if |rows| > 0 then Some(rows[0]) else None
  }

  /** The statement a statistics query issues, built as the source builds it. */
  method IssueStatsQuery(grouping: Grouping, filters: Option<SalaryFilters>) returns (call: DbCall)
    ensures call == StatsCall(grouping, filters)
  {
    var clauses := CollectWhereClauses(filters);
    if |clauses| > 0 {
      var params := BuildFilters(filters);
      call := PrepareAll(StatsSql(grouping, clauses), params);
    } else {
      call := Query(StatsSql(grouping, []));
    }
  }

  /** `getStatsForSalaries`: the first row of the overall statistics query. */
  method GetStatsForSalaries(filters: Option<SalaryFilters>, answer: seq<SalaryStatistics>)
    returns (issued: Issued<Option<SalaryStatistics>>)
    ensures issued.call == StatsCall(Overall, filters)
    ensures issued.result == First(answer)
  {
    var call := IssueStatsQuery(Overall, filters);
    issued := Issued(call, First(answer));
  }

  /** `getStatsForSalariesByDepartment`: every row of the per-department query, unchanged. */
  method GetStatsForSalariesByDepartment(
    filters: Option<SalaryFilters>, answer: seq<SalaryStatisticsPerDepartment>)
    returns (issued: Issued<seq<SalaryStatisticsPerDepartment>>)
    ensures issued.call == StatsCall(ByDepartment, filters)
    ensures issued.result == answer
  {
    var call := IssueStatsQuery(ByDepartment, filters);
    issued := Issued(call, answer);
  }

  /** `getStatsForSalariesByDepartmentAndSubDepartment`: every row of the per-sub-department query, unchanged. */
  method GetStatsForSalariesByDepartmentAndSubDepartment(
    filters: Option<SalaryFilters>, answer: seq<SalaryStatisticsPerDepartmentAndSubDepartment>)
    returns (issued: Issued<seq<SalaryStatisticsPerDepartmentAndSubDepartment>>)
    ensures issued.call == StatsCall(ByDepartmentAndSubDepartment, filters)
    ensures issued.result == answer
  {
    var call := IssueStatsQuery(ByDepartmentAndSubDepartment, filters);
    issued := Issued(call, answer);
  }

  // ---------------------------------------------------------------------------
  // The exact statements, for each combination of filters
  // ---------------------------------------------------------------------------

  /**
   * Filters that produce no clause (an empty currency, an absent contract
   * flag) issue the same statement as no filters at all.
   */
  lemma NoOpFiltersAreUnfiltered(grouping: Grouping, filters: Option<SalaryFilters>)
    requires !FiltersCurrency(filters) && !FiltersOnContract(filters)
    ensures StatsCall(grouping, filters) == StatsCall(grouping, None)
  {
  }

  /** The texts of a one- and a two-clause list. */
  lemma TextsOfShortLists(first: WhereClause, second: WhereClause)
    ensures Texts([first]) == [first.Text()]
    ensures Texts([first, second]) == [first.Text(), second.Text()]
  {
    assert [first, second][1..] == [second];
  }

  /** The WHERE text that both clauses joined with " AND " make. */
  lemma BothClausesJoined()
    ensures Strings.Join(Texts([CurrencyClause, OnContractClause]), " AND ") ==
      "WHERE currency=@currency AND WHERE on_contract=@onContract"
  {
    var first, second := CurrencyClause.Text(), OnContractClause.Text();
    TextsOfShortLists(CurrencyClause, OnContractClause);
    Strings.JoinTwo(first, second, " AND ");
    BothClauseTextsJoined();
  }

  /** The two clause texts with " AND " between them, spelled out. */
  lemma BothClauseTextsJoined()
    ensures "WHERE currency=@currency" + " AND " + "WHERE on_contract=@onContract" ==
      "WHERE currency=@currency AND WHERE on_contract=@onContract"
  {
  }

  /** The joined WHERE text for each non-empty list of clauses the filters can produce. */
  lemma JoinedWhereTexts()
    ensures Strings.Join(Texts([CurrencyClause]), " AND ") == "WHERE currency=@currency"
    ensures Strings.Join(Texts([OnContractClause]), " AND ") == "WHERE on_contract=@onContract"
    ensures Strings.Join(Texts([CurrencyClause, OnContractClause]), " AND ") ==
      "WHERE currency=@currency AND WHERE on_contract=@onContract"
  {
    TextsOfShortLists(CurrencyClause, OnContractClause);
    TextsOfShortLists(OnContractClause, CurrencyClause);
    BothClausesJoined();
  }

  /**
   * Without a clause-producing filter (no filters, an empty currency, no
   * contract flag) the plain query is the base text, or base + GROUP BY.
   */
  lemma UnfilteredStatsQueries(filters: Option<SalaryFilters>)
    requires !FiltersCurrency(filters) && !FiltersOnContract(filters)
    ensures StatsCall(Overall, filters) == Query(Overall.BaseQuery())
    ensures StatsCall(ByDepartment, filters) ==
      Query(ByDepartment.BaseQuery() + " " + "GROUP BY department")
    ensures StatsCall(ByDepartmentAndSubDepartment, filters) ==
      Query(ByDepartmentAndSubDepartment.BaseQuery() + " " + "GROUP BY department, sub_department")
  {
    GroupByTexts();
    PlainStatsCall(Overall, filters);
    UnfilteredStatement(Overall.BaseQuery(), Overall.GroupByClause());
    PlainStatsCall(ByDepartment, filters);
    UnfilteredStatement(ByDepartment.BaseQuery(), ByDepartment.GroupByClause());
    PlainStatsCall(ByDepartmentAndSubDepartment, filters);
    UnfilteredStatement(ByDepartmentAndSubDepartment.BaseQuery(), ByDepartmentAndSubDepartment.GroupByClause());
  }

  /** A currency filter alone adds one clause and binds the currency as given. */
  lemma CurrencyFilteredStatsQueries(filters: Option<SalaryFilters>)
    requires FiltersCurrency(filters) && !FiltersOnContract(filters)
    ensures var params := map["currency" := Str(filters.value.currency.value)];
      && StatsCall(Overall, filters) ==
        PrepareAll(Overall.BaseQuery() + " " + "WHERE currency=@currency", params)
      && StatsCall(ByDepartment, filters) ==
        PrepareAll(ByDepartment.BaseQuery() + " " + "WHERE currency=@currency"
          + " " + "GROUP BY department", params)
      && StatsCall(ByDepartmentAndSubDepartment, filters) ==
        PrepareAll(ByDepartmentAndSubDepartment.BaseQuery() + " " + "WHERE currency=@currency"
          + " " + "GROUP BY department, sub_department", params)
  {
    assert WhereClauses(filters) == [CurrencyClause];
    JoinedWhereTexts();
    GroupByTexts();
    assert FilterParams(filters) == map["currency" := Str(filters.value.currency.value)];
    PreparedStatsCall(Overall, filters);
    FilteredStatement(Overall.BaseQuery(), WhereClauses(filters), Overall.GroupByClause(), "WHERE currency=@currency");
    PreparedStatsCall(ByDepartment, filters);
    FilteredStatement(ByDepartment.BaseQuery(), WhereClauses(filters), ByDepartment.GroupByClause(), "WHERE currency=@currency");
    PreparedStatsCall(ByDepartmentAndSubDepartment, filters);
    FilteredStatement(ByDepartmentAndSubDepartment.BaseQuery(), WhereClauses(filters), ByDepartmentAndSubDepartment.GroupByClause(), "WHERE currency=@currency");
  }

  /** A contract filter alone, `false` included, adds its clause and binds 0 or 1. */
  lemma OnContractFilteredStatsQueries(filters: Option<SalaryFilters>)
    requires !FiltersCurrency(filters) && FiltersOnContract(filters)
    ensures var params := map["onContract" := Number(ContractFlag(filters.value.onContract.value))];
      && StatsCall(Overall, filters) ==
        PrepareAll(Overall.BaseQuery() + " " + "WHERE on_contract=@onContract", params)
      && StatsCall(ByDepartment, filters) ==
        PrepareAll(ByDepartment.BaseQuery() + " " + "WHERE on_contract=@onContract"
          + " " + "GROUP BY department", params)
      && StatsCall(ByDepartmentAndSubDepartment, filters) ==
        PrepareAll(ByDepartmentAndSubDepartment.BaseQuery() + " " + "WHERE on_contract=@onContract"
          + " " + "GROUP BY department, sub_department", params)
  {
    assert WhereClauses(filters) == [OnContractClause];
    JoinedWhereTexts();
    GroupByTexts();
    assert FilterParams(filters) == map["onContract" := Number(ContractFlag(filters.value.onContract.value))];
    PreparedStatsCall(Overall, filters);
    FilteredStatement(Overall.BaseQuery(), WhereClauses(filters), Overall.GroupByClause(), "WHERE on_contract=@onContract");
    PreparedStatsCall(ByDepartment, filters);
    FilteredStatement(ByDepartment.BaseQuery(), WhereClauses(filters), ByDepartment.GroupByClause(), "WHERE on_contract=@onContract");
    PreparedStatsCall(ByDepartmentAndSubDepartment, filters);
    FilteredStatement(ByDepartmentAndSubDepartment.BaseQuery(), WhereClauses(filters), ByDepartmentAndSubDepartment.GroupByClause(), "WHERE on_contract=@onContract");
  }

  /**
   * Both filters: the currency clause comes first and each clause keeps its
   * own `WHERE`, exactly as the source joins them.
   */
  lemma FullyFilteredStatsQueries(filters: Option<SalaryFilters>)
    requires FiltersCurrency(filters) && FiltersOnContract(filters)
    ensures var params := map[
        "currency" := Str(filters.value.currency.value),
        "onContract" := Number(ContractFlag(filters.value.onContract.value))];
      && StatsCall(Overall, filters) ==
        PrepareAll(Overall.BaseQuery() + " "
          + "WHERE currency=@currency AND WHERE on_contract=@onContract", params)
      && StatsCall(ByDepartment, filters) ==
        PrepareAll(ByDepartment.BaseQuery() + " "
          + "WHERE currency=@currency AND WHERE on_contract=@onContract"
          + " " + "GROUP BY department", params)
      && StatsCall(ByDepartmentAndSubDepartment, filters) ==
        PrepareAll(ByDepartmentAndSubDepartment.BaseQuery() + " "
          + "WHERE currency=@currency AND WHERE on_contract=@onContract"
          + " " + "GROUP BY department, sub_department", params)
  {
    assert WhereClauses(filters) == [CurrencyClause, OnContractClause];
    JoinedWhereTexts();
    GroupByTexts();
    assert FilterParams(filters) == map[
        "currency" := Str(filters.value.currency.value),
        "onContract" := Number(ContractFlag(filters.value.onContract.value))];
    PreparedStatsCall(Overall, filters);
    FilteredStatement(Overall.BaseQuery(), WhereClauses(filters), Overall.GroupByClause(), "WHERE currency=@currency AND WHERE on_contract=@onContract");
    PreparedStatsCall(ByDepartment, filters);
    FilteredStatement(ByDepartment.BaseQuery(), WhereClauses(filters), ByDepartment.GroupByClause(), "WHERE currency=@currency AND WHERE on_contract=@onContract");
    PreparedStatsCall(ByDepartmentAndSubDepartment, filters);
    FilteredStatement(ByDepartmentAndSubDepartment.BaseQuery(), WhereClauses(filters), ByDepartmentAndSubDepartment.GroupByClause(), "WHERE currency=@currency AND WHERE on_contract=@onContract");
  }
}
