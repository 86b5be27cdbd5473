# Salary API: a Dafny model of its repository, login and route handlers

This project models the core of a small HTTP API that stores salary records in
one SQLite table (`salaries`) and reports salary statistics. The model covers
three parts:

- **The salary repository** (`models/salary.ts`, module `Salary`). It covers
  adding a record, where `on_contract` is stored as 0/1 and the new row id is
  attached to the returned record. It covers deleting by row id and listing
  all records, where `on_contract` is read back as a boolean. It also covers
  the three statistics queries: overall, per department, and per department
  and sub-department. Each of these composes a base `SELECT` with optional
  `WHERE` clauses and an optional `GROUP BY`. It runs a prepared statement,
  bound to the parameter map `buildFilters` builds, when a clause applies, and
  a plain query otherwise.
- **The login decision** (`routes/auth.route.ts`, module `AuthRoute`). It
  gives 200 with the user's API key, 404 when the credentials are valid but no
  key is provisioned, and 401 otherwise. Node's `Buffer.from` (UTF-8
  encoding) and `crypto.timingSafeEqual` are modelled in module `Buffers`. For
  passwords made of Unicode scalar values the encoding is proved injective, so
  a key is issued only for exactly the stored password. JavaScript strings
  with lone surrogates fall outside that guarantee (see "Left out").
- **The route handlers** (`routes/*.route.ts`, one module each). Each
  handler is a function from the request, plus the database's answer, to the
  repository call it causes and the reply `(status, body)` it sends.

The database helper is not modelled. Every repository operation names the one
call it makes on it (`Salary.DbCall`: `Insert`, `Delete`, `Query`,
`PrepareAll`) and takes the helper's answer as a parameter. That answer is the
row id an insert returns, the number of rows a delete removed, or the rows a
query or prepared statement returned. The repository returns the pair as
`Salary.Issued`.

`buildFilters` and the pushes onto `additionalWhereClauses` change local
state step by step. They are methods (`Salary.BuildFilters`,
`Salary.CollectWhereClauses`, `Salary.IssueStatsQuery` and the three
`GetStatsFor…` methods), each proved equal to a specification function
(`FilterParams`, `WhereClauses`, `StatsCall`). The handlers are pure and use
those functions.

The statement issued when both filters are set is reproduced exactly as the
source writes it:
`… FROM salaries WHERE currency=@currency AND WHERE on_contract=@onContract`.
Each clause keeps its own `WHERE`, which SQL does not accept after `AND`. The
source's unit tests pin this text, so the model keeps it (see
`Salary.FullyFilteredStatsQueries`). SQLite rejects this statement when
`DB.prepare` compiles it, so in the program every statistics request with both
filters fails; the model's database always answers (see "Left out").

Names follow Dafny style: the source's `on_contract` and `sub_department` are
the fields `onContract` and `subDepartment`. Numbers the source only passes
through (`salary`, `avg`, `max`, `min`) are `real`; ids and counts are `int`
and `nat`.

## Model

| member | source | states |
|---|---|---|
| `Strings.Upper` | routes/put-salary.route.ts:23 | uppercasing keeps the length and maps each character by the ASCII upper-case mapping |
| `Strings.UpperHasNoLowercase` | routes/get-salary-stats.route.ts:11 | an uppercased currency contains no lower-case letter |
| `Strings.UpperIdempotent` | routes/get-salary-stats.route.ts:11 | uppercasing an uppercased string changes nothing, so "usd" and "USD" normalise alike |
| `Buffers.EncodeChar` | routes/auth.route.ts:19 | a character takes 1 byte below U+0080, 2 below U+0800, 3 below U+10000 and 4 above (no overlong forms); the lead byte announces the length; continuation bytes are 0x80..0xBF |
| `Buffers.DecodeEncodeChar` | routes/auth.route.ts:19 | decoding a character's UTF-8 bytes gives back its scalar value |
| `Buffers.Utf8` | routes/auth.route.ts:19 | `Buffer.from(s)` is empty exactly when `s` is, and is never shorter than `s` |
| `Buffers.Utf8Injective` | routes/auth.route.ts:19 | two strings of Unicode scalar values with equal `Buffer.from` bytes are equal |
| `Buffers.TimingSafeEqual` | routes/auth.route.ts:19 | throws exactly when the byte lengths differ; yields true exactly when the bytes are equal |
| `Salary.ContractFlag` | models/salary.ts:45 | `b ? 1 : 0` is 0 or 1, and 1 exactly for `true` |
| `Salary.EncodeRow` | models/salary.ts:57-60 | the inserted row is the record with only `on_contract` replaced by 0/1 (1 iff true) |
| `Salary.DecodeRow` | models/salary.ts:83-88 | a read row keeps every field except `on_contract`, which becomes `true` iff it is non-zero |
| `Salary.DecodeEncodeRow` | models/salary.ts:56-88 | storing a record and reading it back gives the record: true -> 1 -> true, false -> 0 -> false |
| `Salary.AddSalary` | models/salary.ts:56-64 | inserts into `salaries` the 0/1-encoded record; returns the input unchanged except `id`, which is the row id unless the input already had one |
| `Salary.AddedRecordReadsBack` | models/salary.ts:56-64 | for an input without id, what `addSalary` returns is what the inserted row reads back as under the new row id |
| `Salary.RemoveSalary` | models/salary.ts:72-75 | deletes from `salaries` by `{rowid}` only; returns true iff the deleted count is non-zero |
| `Salary.DecodeRows` | models/salary.ts:83-88 | the mapped rows have the same count and order, each converted by `DecodeRow` |
| `Salary.GetAllSalaries` | models/salary.ts:80-89 | issues `SELECT ROWID as id, * FROM salaries`; returns as many rows as the query in the same order, only `on_contract` changed |
| `Salary.FiltersCurrency` | models/salary.ts:41 | `filters?.currency` is truthy: never for absent filters or an empty currency, and when it holds the currency is a non-empty string |
| `Salary.FiltersOnContract` | models/salary.ts:44 | `filters?.onContract !== undefined`: never for absent filters, and `false` counts as set |
| `Salary.FilterParams` | models/salary.ts:39-48 | key `currency` iff the currency filter is a non-empty string, bound to it; key `onContract` iff the flag is defined, bound to 1/0; no other keys |
| `Salary.BuildFilters` | models/salary.ts:39-48 | the map built field by field equals `FilterParams` |
| `Salary.ClauseTextShape` | models/salary.ts:100-103 | each clause reads `WHERE <column>=@<parameter>` |
| `Salary.WhereClauses` | models/salary.ts:98-104 | the currency clause is pushed iff the currency is non-empty; the contract clause iff the flag is defined (false included); one clause per applying filter and no other; when both are pushed, currency comes first |
| `Salary.CollectWhereClauses` | models/salary.ts:126-132 | the pushes leave exactly `WhereClauses(filters)` |
| `Salary.PlaceholdersMatchParams` | models/salary.ts:99-107 | the placeholders of the pushed clauses are exactly the keys of the bound parameter map |
| `Salary.Texts` | models/salary.ts:98-106 | the list of clause texts that gets joined has one text per clause, in the same order |
| `Salary.StatementStartsWithBase` | models/salary.ts:134-138 | a statement starts with its base query, followed by " " and the joined clauses when there are any; with no clause and no GROUP BY it is the base query alone |
| `Salary.StatementEndsWithGroupBy` | models/salary.ts:162-166 | a grouped statement ends with " " and its GROUP BY clause, filtered or not |
| `Salary.FilteredStatement` | models/salary.ts:134 | with clauses: base, " ", the joined clauses, then " " and the GROUP BY clause for a grouped query |
| `Salary.UnfilteredStatement` | models/salary.ts:138 | without clauses: the base query, then " " and the GROUP BY clause for a grouped query |
| `Salary.StatsSql` | models/salary.ts:122-139 | the text of a statistics query starts with its grouping's base query and, for a grouped query, ends with " " and its GROUP BY clause |
| `Salary.GroupByTexts` | models/salary.ts:122-152 | the overall query has no GROUP BY; the others group by `department` and by `department, sub_department` |
| `Salary.StatsCall` | models/salary.ts:105-111 | a prepared statement bound to `FilterParams` iff some clause applies, else the plain unfiltered query |
| `Salary.First` | models/salary.ts:108-111 | `result[0]` is the first row, or undefined exactly when there is no row |
| `Salary.PreparedStatsCall` | models/salary.ts:105-108 | with an applying filter, the prepared statement is the grouping's statement with the pushed clauses, bound to `buildFilters(filters)` |
| `Salary.PlainStatsCall` | models/salary.ts:110-111 | with no applying filter, the plain query is the grouping's statement without clauses |
| `Salary.IssueStatsQuery` | models/salary.ts:154-166 | the statement built by pushing, joining and appending equals `StatsCall` |
| `Salary.GetStatsForSalaries` | models/salary.ts:96-112 | issues `StatsCall(Overall, filters)`; returns the first row of the answer |
| `Salary.GetStatsForSalariesByDepartment` | models/salary.ts:119-140 | issues the per-department statement; returns every row unchanged |
| `Salary.GetStatsForSalariesByDepartmentAndSubDepartment` | models/salary.ts:147-168 | issues the per-sub-department statement; returns every row unchanged |
| `Salary.NoOpFiltersAreUnfiltered` | models/salary.ts:127-139 | filters that produce no clause issue the same statement as no filters |
| `Strings.JoinTwo` | models/salary.ts:106 | two parts joined are the first, the separator and the second |
| `Strings.JoinEnds` | models/salary.ts:106 | `join` gives "" for no parts and the part itself for one; otherwise it starts with the first part and the separator and ends with the separator and the last part |
| `Salary.TextsOfShortLists` | models/salary.ts:98-104 | the texts of one or two clauses are their clause texts, in order |
| `Salary.BothClausesJoined` | models/salary.ts:134 | both clauses joined with " AND " give `WHERE currency=@currency AND WHERE on_contract=@onContract` |
| `Salary.JoinedWhereTexts` | models/salary.ts:134 | joining the clauses with " AND " gives the literal `WHERE currency=@currency AND WHERE on_contract=@onContract` |
| `Salary.UnfilteredStatsQueries` | tests/models/salary.test.ts:107-111 | without clauses: the base query, or base + " GROUP BY department" / " GROUP BY department, sub_department" |
| `Salary.CurrencyFilteredStatsQueries` | models/salary.ts:155-163 | currency alone: base + " WHERE currency=@currency" (+ GROUP BY), bound to `{currency}` only |
| `Salary.OnContractFilteredStatsQueries` | models/salary.ts:158-163 | contract flag alone, false included: base + " WHERE on_contract=@onContract" (+ GROUP BY), bound to `{onContract: 0/1}` |
| `Salary.FullyFilteredStatsQueries` | tests/models/salary.test.ts:142-152 | both filters: base + " WHERE currency=@currency AND WHERE on_contract=@onContract" (+ GROUP BY), bound to both |
| `AuthRoute.StoredPassword` | routes/auth.route.ts:19 | the stored password with the fallback `''` is, for a known user, the stored password itself: the fallback stands in only for the empty string |
| `AuthRoute.GetApiKeyHandler` | routes/auth.route.ts:16-35 | throws exactly for a known user whose password byte length differs; otherwise one of 200 with a key, 404 or 401, each echoing the username |
| `AuthRoute.KeyIssuedIffCredentialsAndKey` | routes/auth.route.ts:19-25 | 200 iff the user is known, the password (of Unicode scalar values) is the stored one and a key exists; the key is `AuthKeys[username]` |
| `AuthRoute.NoKeyIffCredentialsWithoutKey` | routes/auth.route.ts:26-29 | the 404 "No API key found…" reply iff the credentials are valid and no key is provisioned |
| `AuthRoute.UnknownUserRejected` | routes/auth.route.ts:31-34 | an unknown username gets the 401 "Credentials provided were incorrect…" reply whatever the password |
| `AuthRoute.WrongPasswordRejected` | routes/auth.route.ts:19-34 | a known user with a different password of the same byte length gets 401 |
| `AuthRoute.LengthMismatchThrows` | routes/auth.route.ts:19 | a known user with a non-empty password who submits "" makes the handler throw |
| `AuthRoute.GetApiKeyHandlerLengthChecked` | routes/auth.route.ts:16-35 | with the length checked first: never throws; 200 with the key, 404 or 401 exactly by credentials and key |
| `PutSalaryRoute.ContractFromPayload` | routes/put-salary.route.ts:24 | an absent `on_contract` is false, a present one is itself |
| `PutSalaryRoute.SalaryFromPayload` | routes/put-salary.route.ts:20-27 | the forwarded record has no id, the uppercased currency, and name, salary and departments unchanged |
| `PutSalaryRoute.AddSalaryHandler` | routes/put-salary.route.ts:18-29 | inserts the payload with currency uppercased and on_contract 0/1; replies 201 with that record plus the new id |
| `PutSalaryRoute.OtherFieldsNeverForwarded` | routes/put-salary.route.ts:20-27 | payload properties beyond the six named ones change neither the insert nor the reply |
| `PutSalaryRoute.CurrencyCaseIsNormalised` | routes/put-salary.route.ts:23 | a payload whose currency is already uppercased stores and replies the same |
| `DeleteSalaryRoute.DeleteSalaryHandler` | routes/delete-salary.route.ts:13-20 | deletes exactly the path id; 200 iff a row was deleted, else 410; body `{id, deleted}` with the requested id |
| `DeleteSalaryRoute.DeletedAgreesWithStatus` | routes/delete-salary.route.ts:16-19 | `deleted` in the body is true iff the status is 200 |
| `GetSalaryStatsRoute.QueryFilters` | routes/get-salary-stats.route.ts:11 | the currency filter is the uppercased query currency, absent when absent; `on_contract` is forwarded unchanged |
| `GetSalaryStatsRoute.QueryFiltersIgnoreCurrencyCase` | routes/get-salary-stats.route.ts:11 | a query currency and its uppercased form give the same filters |
| `GetSalaryStatsRoute.GetSalaryStatsHandler` | routes/get-salary-stats.route.ts:9-13 | issues the overall statement for the normalised filters; replies 200 with the first row unchanged |
| `GetSalaryStatsRoute.NoQueryIssuesBaseQuery` | tests/routes/get-salary-stats.route.test.ts:45-49 | no query parameters: the plain base query |
| `GetSalaryStatsRoute.CurrencyQueryIsUppercased` | tests/routes/get-salary-stats.route.test.ts:100-110 | a currency alone: base + " WHERE currency=@currency" bound to the uppercased currency |
| `GetSalaryStatsRoute.EmptyCurrencyIsIgnored` | routes/get-salary-stats.route.ts:11 | an empty currency adds no clause: the plain base query |
| `GetSalaryByDepartmentRoute.GetSalaryByDepartmentHandler` | routes/get-salary-by-department.route.ts:6-10 | issues the per-department statement for the normalised filters; replies 200 with all rows unchanged |
| `GetSalaryByDepartmentRoute.NoQueryIssuesGroupedQuery` | tests/routes/get-salary-by-department.route.test.ts:45-49 | no query parameters: base + " GROUP BY department" |
| `GetSalaryByDepartmentRoute.CurrencyQueryIsUppercased` | tests/routes/get-salary-by-department.route.test.ts:107-117 | a currency alone: base + " WHERE currency=@currency GROUP BY department" bound to the uppercased currency |
| `GetSalaryByDepartmentAndSubDepartmentRoute.GetSalaryByDepartmentAndSubDepartmentHandler` | routes/get-salary-by-department-and-sub-department.route.ts:6-13 | issues the per-sub-department statement for the normalised filters; replies 200 with all rows unchanged |
| `GetSalaryByDepartmentAndSubDepartmentRoute.NoQueryIssuesGroupedQuery` | tests/routes/get-salary-by-department-and-sub-department.route.test.ts:46-49 | no query parameters: base + " GROUP BY department, sub_department", no WHERE |
| `GetSalaryByDepartmentAndSubDepartmentRoute.CurrencyQueryIsUppercased` | tests/routes/get-salary-by-department-and-sub-department.route.test.ts:109-119 | a currency alone: base + " WHERE currency=@currency GROUP BY department, sub_department" bound to the uppercased currency |

## Findings

| source | as written | input that shows it | evidently intended | confidence | as-written member | corrected member |
|---|---|---|---|---|---|---|
| routes/auth.route.ts:19 | the password check calls `timingSafeEqual` on the two UTF-8 buffers with no length guard, so it throws a RangeError when their byte lengths differ and the login request ends in the framework's 500 error reply instead of the 401 reply | a known user whose stored password is non-empty submits the password "" | a password of a different length is a mismatch like any other and gets the 401 reply | medium (not executed) | `AuthRoute.LengthMismatchThrows` | `AuthRoute.GetApiKeyHandlerLengthChecked` |

## Left out

- Strings.Upper: models only the ASCII case mapping. Full Unicode `toUpperCase` can change a string's length (for example "ß" becomes "SS"); that is not captured.
- Buffers.Utf8: strings are sequences of Unicode scalar values. A JavaScript string with a lone surrogate, which `Buffer.from` encodes as U+FFFD, is not modelled.
- Buffers.Utf8Injective: holds only for strings of Unicode scalar values. On JavaScript strings `Buffer.from` is not injective: a lone surrogate and U+FFFD both encode as the bytes EF BF BD, so "p\uD800" and "p\uFFFD" give the same buffer.
- AuthRoute.KeyIssuedIffCredentialsAndKey: the "only for the stored password" direction holds only for passwords of Unicode scalar values. In the program, a submitted password that differs from the stored one by a lone surrogate in place of U+FFFD (or the reverse) gives equal buffers at routes/auth.route.ts:19, and the program issues the key for it.
- AuthRoute.GetApiKeyHandler: a thrown error is the outcome `Thrown`. Turning it into an HTTP 500 reply is the web framework's job and is not modelled.
- Salary.StatsCall: database errors are not modelled; the database always answers. With a non-empty currency and a defined `on_contract`, the statement is `… WHERE currency=@currency AND WHERE on_contract=@onContract` (with or without `GROUP BY …`). SQLite rejects it as a syntax error when `DB.prepare` compiles it at models/salary.ts:106, :134 and :162. So in the program those requests end in the framework's 500 error reply, not the 200 reply with rows that `GetSalaryStatsRoute.GetSalaryStatsHandler`, `GetSalaryByDepartmentRoute.GetSalaryByDepartmentHandler` and `GetSalaryByDepartmentAndSubDepartmentRoute.GetSalaryByDepartmentAndSubDepartmentHandler` state. The statement text itself is modelled exactly as written (`Salary.FullyFilteredStatsQueries`).
- The database helper (`database/db.ts`) and SQLite are not modelled. The rows a query returns, the row id of an insert and the count of a delete are parameters. So nothing is proved about `AVG`/`MIN`/`MAX`, `GROUP BY` partitioning, floating-point averages, or whether deleting the same id twice reports false the second time.
- Request schema validation and coercion by the web framework and AJV (`removeAdditional`, type coercion, required fields) are library behaviour. The handlers receive already-validated values. Extra body properties are represented only to show that the handler never forwards them.
- Response serialisation by the response schemas, and the JSON key order of replies, are not modelled.
- Bearer-token authentication and route registration in `index.ts` (`attachAuthHandler`, the auth plugins, swagger, `listen`) rely on plugins whose code is not part of this model.
- `routes/get-salary.route.ts` passes `getAllSalaries()` straight to the reply and has no logic of its own. `Salary.GetAllSalaries` covers what it returns.
- JavaScript numbers are modelled as `real` (salaries, statistics) and `int` (ids, counts); NaN, infinities and rounding are not modelled.
