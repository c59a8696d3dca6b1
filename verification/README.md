# rh-matilha business rules in Dafny

This project models the business rules of the rh-matilha HR application and proves properties of the model. The application is a Next.js app with Prisma-backed request handlers. The model covers the rules underneath its pages and handlers:

- **The in-memory equipment loan table.** The table is a list of records plus two counters that number new records (`mem-N`) and loan-history entries (`hist-N`). POST appends a record. PATCH either returns a loaned item or merges the truthy fields of the request into it. GET projects every record with its borrower. The equipment overview page adds status counts and a group-by-borrower over the same data.
- **Vacation rules:**
  - the entitlement (ten days per whole year worked, minus approved days) and its "advance / in debt" flag;
  - the approve/refuse dialog and its motive handling;
  - the list of employees with vacation owed, and the vacation overview counters;
  - the vacation request handlers (POST creation defaults, PATCH audit fields per outcome);
  - the request form's day count and checks;
  - the twelve-month chart of approved vacations.
- **Employee rules:**
  - the form's field updates;
  - the CPF and CEP masks;
  - the first-failure validation;
  - the creation handler, whose duplicate checks keep CPF and corporate e-mail unique.
- **Salary rules:**
  - the salary change handler, which records the old salary and writes the new one back;
  - the raise calculator dialog in value or percent mode;
  - the projection dialog and its totals;
  - the salary report (department filter, department list, figures, badge);
  - the positive-salary statistics handler.

The database is a `Store` object holding three maps from id to record. Its invariant is the one the handlers keep:

- every record sits under its own id;
- CPF and corporate e-mail are unique;
- every vacation request and salary change belongs to a stored employee.

Several things the handlers and pages get from outside are parameters of the model:

- the clock (`now`, `agora`, the current month and year, whole years worked);
- the ids the database generates;
- the number and date parsers (`parseFloat`, `parseInt`, `new Date(text)`).

Money is `real`, so the arithmetic is exact. Calendar dates are `Date` values with a day number. A date input's `YYYY-MM-DD` text is related to its date by a proved round trip and a proved order correspondence.

Where a source file is imperative, the model is imperative:

- the equipment table is a class with a `seq` field and two counters;
- the chart's buckets are filled in place in an `array`;
- the dialogs are classes whose methods update their fields.

Each such method is proved against a specification function, and the properties are proved about those functions.

## Model

| member | source | states |
|---|---|---|
| EquipmentTable.NewEquipment | src/app/api/equipamentos/route.ts:173-188 | The created record carries the given id, status DISPONIVEL, no borrower, no loan or return date and an empty history. tipo/descricao/marca/modelo are copied. numeroSerie is absent unless truthy, and observacoes defaults to "". |
| EquipmentTable.PostAccepted | src/app/api/equipamentos/route.ts:165-170 | POST goes ahead exactly when tipo, descricao, marca and modelo are all truthy. |
| EquipmentTable.IsReturn | src/app/api/equipamentos/route.ts:221 | A PATCH is a return when its status is DEVOLVIDO or its devolver flag is set. |
| EquipmentTable.IndexOf | src/app/api/equipamentos/route.ts:214 | The result is the first position whose record has the id, or none exactly when no record has it. |
| EquipmentTable.Returned | src/app/api/equipamentos/route.ts:220-246 | Return branch: status DISPONIVEL, borrower and loan date cleared, return date set. A history entry with the previous borrower and loan date is prepended exactly when both were truthy. Every other field is kept. |
| EquipmentTable.Merged | src/app/api/equipamentos/route.ts:248-257 | Merge branch: each of funcionarioId, status, dataEmprestimo, dataDevolucao and observacoes is overwritten exactly when the body's value is truthy. Every other field except updatedAt is unchanged. |
| EquipmentTable.DevolverButtonKeepsBorrower | src/app/equipamentos/em-uso/page.tsx:62-71 | The in-use page's "Devolver" body (status DISPONIVEL) is not a return. It marks the item available but keeps its borrower, loan date and history. |
| EquipmentTable.View | src/app/api/equipamentos/route.ts:136-149 | A borrower object is present exactly when funcionarioId is truthy, and carries that id. Falsy dates become null, and an empty createdAt or updatedAt becomes the current time. All other fields are unchanged. |
| EquipmentTable.ViewAll | src/app/api/equipamentos/route.ts:136 | GET's map: the same number of records, in the same order, each with its own id. |
| EquipmentTable.FreshTagDiffers | src/app/api/equipamentos/route.ts:174 | An id numbered with the counter's current value differs from every id issued below it. |
| EquipmentTable.ReturnKeepsTableValid | src/app/api/equipamentos/route.ts:221-246 | A return keeps the table invariant, with the history counter advanced by one exactly when an entry is logged. The logged entry's id is new to the whole table. |
| EquipmentTable.TableInvariant | src/app/api/equipamentos/route.ts:78-79 | The table invariant: both counters are at least 1, every record id is `mem-` followed by a number from 1 to nextId - 1, record ids are distinct, and every history id is `hist-` followed by a number from 1 to nextHistId - 1. |
| EquipmentTable.MergeKeepsTableValid | src/app/api/equipamentos/route.ts:248-257 | A merge keeps the table invariant: ids, histories and counters are untouched. |
| EquipmentTable.Seed | src/app/api/equipamentos/route.ts:5-77 | The initial table has three records. |
| EquipmentTable.SeedValid | src/app/api/equipamentos/route.ts:5-79 | The initial table satisfies the invariant with both counters at 4. Its ids are mem-1, mem-2 and mem-3, and all three items are available with no borrower. |
| EquipmentTable.SeedRecordIds | src/app/api/equipamentos/route.ts:5-77 | The initial record ids are mem-1..mem-3, issued below 4 and pairwise distinct. |
| EquipmentTable.SeedHistoryIds | src/app/api/equipamentos/route.ts:18-40 | The initial loan-history ids are hist-1..hist-3, issued below 4. |
| EquipmentTable.Table.constructor | src/app/api/equipamentos/route.ts:5-79 | The table starts with the three seeded records, valid, with nextId and nextHistId at 4. |
| EquipmentTable.Table.Post | src/app/api/equipamentos/route.ts:164-195 | A body missing tipo, descricao, marca or modelo gives 400 and changes neither the list nor the counter. Otherwise it gives 201 and appends exactly one new record numbered `mem-` + the old nextId; that id differs from every existing id, and nextId grows by one. The invariant is kept. |
| EquipmentTable.Table.Append | src/app/api/equipamentos/route.ts:173-190 | The accepting branch: the new record is appended at the end, the existing records are unchanged, the id is fresh, and the counter grows by one. |
| EquipmentTable.Table.Patch | src/app/api/equipamentos/route.ts:209-261 | No id gives 400 and an unknown id gives 404, both without change. Otherwise only the record at the id's first position is replaced by its returned or merged version. The number of records never changes, nextId is kept, and nextHistId grows by one exactly when a return logs an entry, whose id is fresh. |
| EquipmentTable.Table.Get | src/app/api/equipamentos/route.ts:131-151 | GET returns the view of every record, in order, with its id and status, and a borrower object exactly when funcionarioId is truthy. |
| Decimal.ValueOfRender | src/app/api/equipamentos/route.ts:174 | A counter rendered in decimal reads back as the same number. |
| Decimal.RenderInjective | src/app/api/equipamentos/route.ts:174 | Distinct counters render as distinct strings. |
| Decimal.SerialOfTagged | src/app/api/equipamentos/route.ts:228 | The counter can be recovered from an id `prefix + n`. |
| Decimal.TaggedInjective | src/app/api/equipamentos/route.ts:174 | Ids with one prefix are equal exactly when their counters are. |
| EquipmentStats.ComputeStats | src/app/equipamentos/page.tsx:67-72 | Each of disponiveis, emUso and outros counts the items with its status class, and total equals their sum and the number of items. |
| EquipmentStats.StatusClassesPartition | src/app/equipamentos/page.tsx:69-71 | Every item is in exactly one of the three status classes. |
| EquipmentStats.ItemsOfMembership | src/app/equipamentos/page.tsx:78-86 | An item is in borrower k's group exactly when it is a considered item of borrower k. |
| EquipmentStats.ItemIndices | src/app/equipamentos/page.tsx:78-86 | The positions of borrower k's items: strictly increasing, within the list, and a position is included exactly when its item belongs to k. |
| EquipmentStats.ItemsOfInOrder | src/app/equipamentos/page.tsx:78-86 | A borrower's group keeps list order: it is as long as the list of that borrower's positions, and its j-th item is the item at the j-th position. |
| EquipmentStats.KeysHaveItems | src/app/equipamentos/page.tsx:80-86 | A borrower id is in use exactly when its group is non-empty. |
| EquipmentStats.GroupOf | src/app/equipamentos/page.tsx:80-86 | A borrower's group carries that borrower's id and exactly their items, in order. |
| EquipmentStats.GroupBy | src/app/equipamentos/page.tsx:77-90 | There is one group per distinct borrower id. |
| EquipmentStats.GroupBySpec | src/app/equipamentos/page.tsx:78-90 | The groups' ids are the distinct borrower ids in order of first appearance, pairwise distinct. Each group holds exactly its borrower's items in list order and is non-empty. |
| EquipmentStats.GroupByCovers | src/app/equipamentos/page.tsx:77-88 | Every considered item lies in the group of its own borrower. |
| EquipmentStats.GroupSizesSum | src/app/equipamentos/page.tsx:77-90 | The group sizes add up to the number of considered items. |
| EquipmentStats.AddItem | src/app/equipamentos/page.tsx:79-86 | One reduce step: the item's id is added to the dictionary's keys and the item joins its group. Other keys are unchanged. |
| EquipmentStats.AccStep | src/app/equipamentos/page.tsx:78-88 | One reduce step keeps the accumulator's meaning: its keys in insertion order are the distinct ids, and each maps to its group so far. |
| EquipmentStats.AccOfMeaning | src/app/equipamentos/page.tsx:78-88 | The folded accumulator has that meaning after any prefix of the items. |
| EquipmentStats.AccFinal | src/app/equipamentos/page.tsx:90 | `Object.values` of the final dictionary, in insertion order, is the specified grouping. |
| EquipmentStats.Accumulate | src/app/equipamentos/page.tsx:78-88 | The reduce loop ends with the accumulator meaning what AccInvariant says. |
| EquipmentStats.GroupByFuncionario | src/app/equipamentos/page.tsx:76-90 | Only in-use items with a borrower are grouped. The result equals the specified grouping, and its sizes add up to the number of such items. |
| VacationEntitlement.RequestsOf | src/components/ferias/status-change-dialog.tsx:88 | Every kept request belongs to the employee. |
| VacationEntitlement.RequestsOfMembership | src/components/ferias/status-change-dialog.tsx:88 | A request is considered exactly when its funcionarioId is the employee's id. |
| VacationEntitlement.ApprovedDaysAppend | src/components/ferias/status-change-dialog.tsx:118-119 | Days taken add up over concatenation. |
| VacationEntitlement.ApprovedDays | src/components/ferias/status-change-dialog.tsx:118-119 | Days taken: the approved requests' lengths, summed in list order. |
| VacationEntitlement.ApprovedDaysIsFilteredSum | src/components/ferias/status-change-dialog.tsx:118-119 | The single fold equals filtering the approved requests, then summing their lengths, as the source writes it. |
| VacationEntitlement.ApprovedDaysIgnoresOthers | src/components/ferias/status-change-dialog.tsx:118-119 | A pending or refused request, anywhere in the list, never changes the days taken. |
| VacationEntitlement.ApprovedDaysNonNegative | src/components/ferias/status-change-dialog.tsx:119 | With non-negative request lengths, the days taken are non-negative. |
| VacationEntitlement.DireitoTotal | src/components/ferias/status-change-dialog.tsx:115 | The entitlement is non-negative, a multiple of 10, 10 times the years when they are not negative, and 0 below one year. |
| VacationEntitlement.CalcularDireitoFerias | src/components/ferias/status-change-dialog.tsx:96-141 | With no employee: temDireito false, 0 days, 0 years. Otherwise diasJaTirados is the approved days and diasDisponiveis is the entitlement minus them (possibly negative). temDireito holds iff years >= 1, and deveAntecipar iff years < 1 or the balance is negative. |
| VacationEntitlement.NoAdvanceMeansEntitled | src/components/ferias/status-change-dialog.tsx:126-131 | Without an advance, the employee is entitled and the balance is not negative. |
| VacationEntitlement.EntitlementIgnoresUnapproved | src/components/ferias/status-change-dialog.tsx:118-123 | Adding a non-approved request anywhere leaves the whole result unchanged. |
| VacationEntitlement.ApprovalLowersBalance | src/components/ferias/status-change-dialog.tsx:119-123 | One more approved request of n days lowers the balance by exactly n. |
| VacationEntitlement.Classify | src/components/ferias/status-change-dialog.tsx:328-329 | The three readings (can approve, limit reached, in debt) hold exactly for >0, ==0 and <0, so they are exhaustive and exclusive. |
| VacationEntitlement.AdvanceIffDebt | src/components/ferias/status-change-dialog.tsx:131 | With at least one year worked, approval becomes an advance exactly when the balance reads as debt. |
| VacationEntitlement.StatusChangeDialog.constructor | src/components/ferias/status-change-dialog.tsx:53-58 | Empty motive, advance confirmation hidden, nothing confirmed. |
| VacationEntitlement.StatusChangeDialog.SetMotivo | src/components/ferias/status-change-dialog.tsx:470 | Typing sets the motive and changes nothing else. |
| VacationEntitlement.StatusChangeDialog.HandleSubmit | src/components/ferias/status-change-dialog.tsx:143-150 | A blank motive (after trim) changes nothing. Otherwise onConfirm is called exactly once with the status and the motive, and the motive is reset to "". |
| VacationEntitlement.StatusChangeDialog.HandleAntecipacao | src/components/ferias/status-change-dialog.tsx:152-160 | As HandleSubmit with APROVADA, and the advance confirmation closes. A blank motive changes nothing. |
| VacationEntitlement.StatusChangeDialog.HandleCancelAntecipacao | src/components/ferias/status-change-dialog.tsx:162-164 | The confirmation closes and nothing else changes. |
| VacationEntitlement.StatusChangeDialog.ClickApprove | src/components/ferias/status-change-dialog.tsx:486-503 | The button is disabled while the motive is blank. If approval is an advance it opens the confirmation; otherwise it approves. |
| VacationEntitlement.StatusChangeDialog.ClickReject | src/components/ferias/status-change-dialog.tsx:506-512 | The button is disabled while the motive is blank; otherwise it refuses once and clears the motive. |
| VacationPages.RequestedIds | src/app/ferias/em-haver/page.tsx:55 | An id is in the set exactly when some request, of any status, has it as funcionarioId. |
| VacationPages.RowOf | src/app/ferias/em-haver/page.tsx:67-87 | id, nome, cargo, departamento and dataAdmissao are copied. direitoTotal is 10 times the years, diasJaTirados 0, and diasDisponiveis equals direitoTotal. |
| VacationPages.OwedRows | src/app/ferias/em-haver/page.tsx:57-88 | The list is no longer than the employee list, and every row has at least one year and no request. |
| VacationPages.OwedList | src/app/ferias/em-haver/page.tsx:57-66 | The em-haver list over the ids that have any request: at most one row per employee. Order and membership are stated by OwedRowsInOrder and OwedListMembership. |
| VacationPages.OwedCount | src/app/ferias/page.tsx:64-73 | The overview's em-haver count never exceeds the number of employees. OwedCountIsListLength ties it to the list. |
| VacationPages.OwedIndices | src/app/ferias/em-haver/page.tsx:57-66 | The positions the filter keeps: strictly increasing, within the employee list, and a position is kept exactly when its employee has a whole year and no request. |
| VacationPages.OwedRowsInOrder | src/app/ferias/em-haver/page.tsx:57-88 | The list is a subsequence of the employee list in its order: row j is the row of the employee at the j-th kept position. |
| VacationPages.OwedListMembership | src/app/ferias/em-haver/page.tsx:57-66 | An employee is listed iff they have at least one whole year and no request of any status. |
| VacationPages.OwedRowsShape | src/app/ferias/em-haver/page.tsx:73-87 | Every row owes at least 10 days, has taken 0, and is the row of an employee of the list. |
| VacationPages.ComputeVacationStats | src/app/ferias/page.tsx:57-73 | totalFuncionarios is the number of employees. Each status counter counts requests with exactly that status, and the three sum to at most the number of requests. The owed count is at most the headcount. |
| VacationPages.StatusCountsBounded | src/app/ferias/page.tsx:59-61 | No request is counted under two statuses. |
| VacationPages.OwedCountIsListLength | src/app/ferias/page.tsx:65-73 | The overview's filter count equals the length of the em-haver rows for the same predicate. |
| VacationPages.StatsMatchOwedList | src/app/ferias/page.tsx:64-73 | For equal inputs, the overview's em-haver counter equals the em-haver list's length. |
| VacationApi.CreateReply | src/app/api/ferias/route.ts:38-85 | Without funcionarioId, dataInicio or dataFim the reply is 400; an unknown employee gives 404. For a stored employee, a date or day count that does not parse gives 500, and success holds exactly when every check passes and all three parse. A created request belongs to a stored employee and is PENDENTE with diasDisponiveis 30. Its ano is the year of dataInicio, its dates and days are the parsed body values, observacoes defaults to "", and it has no audit dates. |
| VacationApi.Post | src/app/api/ferias/route.ts:34-93 | The store gains exactly the created request when accepted, and nothing otherwise. Other tables are untouched, and the store invariant is kept. |
| VacationApi.Updated | src/app/api/ferias/route.ts:130-146 | APROVADA sets dataAprovacao and aprovadoPor (default 'Sistema') and writes motivo. REJEITADA sets dataRecusa, recusadoPor (default 'Sistema') and motivoRecusa. Any other status changes only the status. |
| VacationApi.StatusReply | src/app/api/ferias/route.ts:99-159 | A missing id or status gives 400. An unknown id also gives 400, not 404. Otherwise the reply is 200 with the updated request. |
| VacationApi.OutcomesWriteTheirOwnFields | src/app/api/ferias/route.ts:133-141 | Approval leaves the refusal fields as they were, and refusal leaves motivo and the approval fields as they were. |
| VacationApi.AnyTransitionAccepted | src/app/api/ferias/route.ts:131 | The current status is never checked: any stored request can be moved to any non-empty status. |
| VacationApi.Patch | src/app/api/ferias/route.ts:96-159 | The request is rewritten in place when found, and nothing changes otherwise. The store invariant is kept. |
| VacationForm.DaysForRange | src/components/ferias/ferias-dialog.tsx:77-89 | The count is left as it is exactly when either date is empty. A non-zero count means both dates parse and the start is before the end. |
| VacationForm.DaysForRangeAtLeastTwo | src/components/ferias/ferias-dialog.tsx:79-87 | For parseable dates the count is (end - start in days) + 1 when start < end, and 0 otherwise, so it is 0 or at least 2. |
| VacationForm.DaysAgreeWithSubmitOrder | src/components/ferias/ferias-dialog.tsx:81-99 | For parseable dates, the count is positive exactly when the submit's string comparison accepts the range. |
| VacationForm.SubmitError | src/components/ferias/ferias-dialog.tsx:94-102 | A missing employee, date or non-blank motivo gives the required-fields message first. Otherwise `dataInicio >= dataFim` gives the date-order message; otherwise there is no error. |
| VacationForm.SingleDayRefused | src/components/ferias/ferias-dialog.tsx:99-102 | A request whose start and end coincide is always refused. |
| VacationForm.AcceptedRangeSpansTwoDays | src/components/ferias/ferias-dialog.tsx:94-102 | An accepted request with parseable dates counts at least two days. |
| VacationForm.FeriasDialog.constructor | src/components/ferias/ferias-dialog.tsx:43-74 | The form starts empty. When both funcionarioId and funcionarioNome are given, that employee is preselected. |
| VacationForm.FeriasDialog.UpdateDias | src/components/ferias/ferias-dialog.tsx:77-89 | The day-count effect sets dias to DaysForRange, or leaves it when a date is empty. |
| VacationForm.FeriasDialog.SetDataInicio | src/components/ferias/ferias-dialog.tsx:77-89 | The start date changes and dias follows it. |
| VacationForm.FeriasDialog.SetDataFim | src/components/ferias/ferias-dialog.tsx:77-89 | The end date changes and dias follows it. |
| VacationForm.FeriasDialog.ResetForm | src/components/ferias/ferias-dialog.tsx:138-145 | Employee, dates, motivo and observacoes are cleared, and dias is 0. |
| VacationForm.FeriasDialog.HandleSubmit | src/components/ferias/ferias-dialog.tsx:91-136 | A refused form sends nothing and stays as it is. Otherwise the form's fields are sent, and the form is reset once the server accepts them. |
| VacationChart.InitialBucketsSpec | src/components/ferias/ferias-chart.tsx:57-69 | Bucket i is month (mesAtual+i) % 12 of the right year, i.e. i months after the current month, and starts empty. The twelve (month, year) pairs are pairwise distinct. |
| VacationChart.InitialBuckets | src/components/ferias/ferias-chart.tsx:57-69 | The window has exactly twelve buckets. InitialBucketsSpec states each one. |
| VacationChart.FillAll | src/components/ferias/ferias-chart.tsx:72-89 | The forEach over the requests never adds or removes a bucket. FillAllKeepsMonths and FillAllCounts state the rest. |
| VacationChart.ChartBuckets | src/components/ferias/ferias-chart.tsx:38-89 | The chart counts the approved requests only, into twelve buckets. |
| VacationChart.BuildBuckets | src/components/ferias/ferias-chart.tsx:57-69 | The loop builds exactly the twelve specified buckets. |
| VacationChart.FindBucket | src/components/ferias/ferias-chart.tsx:77-79 | The result is the first bucket of the request's start month and year, or none exactly when no bucket matches. |
| VacationChart.Find | src/components/ferias/ferias-chart.tsx:77-79 | The search over the array agrees with FindBucket. |
| VacationChart.FillBuckets | src/components/ferias/ferias-chart.tsx:72-89 | The in-place forEach leaves the buckets equal to the fold FillAll of the requests. |
| VacationChart.BuildChart | src/components/ferias/ferias-chart.tsx:38-89 | A fresh 12-bucket array holding the chart of the approved requests. |
| VacationChart.FillAllKeepsMonths | src/components/ferias/ferias-chart.tsx:81-88 | Counting requests never changes a bucket's month or year. |
| VacationChart.FillAllCounts | src/components/ferias/ferias-chart.tsx:72-89 | With distinct months, each bucket gains exactly the requests starting in its month, and one tooltip line per counted request. |
| VacationChart.ChartCountsApproved | src/components/ferias/ferias-chart.tsx:38-89 | Each chart bucket counts exactly the approved requests starting in its month. Its tooltip list is as long as its quantity, and it is i months after the current month. |
| VacationChart.TotalQuantityUpdate | src/components/ferias/ferias-chart.tsx:82 | Replacing one bucket changes the total by that bucket's difference. |
| VacationChart.FillAllTotal | src/components/ferias/ferias-chart.tsx:72-89 | Each request is counted at most once. |
| VacationChart.ChartTotalBounded | src/components/ferias/ferias-chart.tsx:38-89 | The bucket quantities add up to at most the number of approved requests. |
| VacationChart.ChartIgnoresUnapproved | src/components/ferias/ferias-chart.tsx:38 | A non-approved request, anywhere in the list, leaves the chart unchanged. |
| VacationChart.MaxQuantidade | src/components/ferias/ferias-chart.tsx:92 | The maximum is at least 1 and at least every quantity, and is 1 or some bucket's quantity. |
| VacationChart.ChartSummary | src/components/ferias/ferias-chart.tsx:149-162 | The figures are the approved count, the months with vacations (at most the bucket count), and the days of all approved requests, inside the window or not. |
| EmployeeForm.Set | src/components/funcionarios/funcionario-dialog.tsx:93-97 | Only the named field takes the new value; every other field is unchanged. |
| EmployeeForm.FormatCpf | src/components/funcionarios/funcionario-dialog.tsx:224-227 | Non-digits are dropped. With at least 11 digits the first 11 are written ddd.ddd.ddd-dd followed by the rest; otherwise the bare digits are returned. |
| EmployeeForm.FormatCep | src/components/funcionarios/funcionario-dialog.tsx:229-232 | Non-digits are dropped. With at least 8 digits the result is ddddd-ddd followed by the rest; otherwise the bare digits. |
| EmployeeForm.FormatCpfDigits | src/components/funcionarios/funcionario-dialog.tsx:224-227 | The masked CPF keeps exactly the digits it was made from. |
| EmployeeForm.FormatCpfIdempotent | src/components/funcionarios/funcionario-dialog.tsx:224-227 | Masking twice equals masking once. |
| EmployeeForm.FormatCepDigits | src/components/funcionarios/funcionario-dialog.tsx:229-232 | The masked CEP keeps exactly the digits it was made from. |
| EmployeeForm.FormatCepIdempotent | src/components/funcionarios/funcionario-dialog.tsx:229-232 | Masking twice equals masking once. |
| EmployeeForm.EmailPatternIsShape | src/components/funcionarios/funcionario-dialog.tsx:134-137 | The e-mail pattern accepts exactly strings that have no whitespace, exactly one '@' with text before it, and a '.' after the '@' with text on both sides. |
| EmployeeForm.FirstBlankFrom | src/components/funcionarios/funcionario-dialog.tsx:106-119 | The result is the first position from i whose field is blank after trim, with all earlier ones filled. |
| EmployeeForm.FirstBlank | src/components/funcionarios/funcionario-dialog.tsx:106-119 | The message is that of the first required field, in the fixed order, that is blank after trim. There is none exactly when all are filled. |
| EmployeeForm.Validate | src/components/funcionarios/funcionario-dialog.tsx:105-140 | The result is null iff: every required field is filled, the salary parses to more than 0, the CPF has exactly 11 digits, and the e-mail has the pattern's shape. A blank field wins, then the salary, then the CPF, then the e-mail. |
| EmployeeForm.MaskedCpfCheck | src/components/funcionarios/funcionario-dialog.tsx:128-131 | A CPF typed through the mask passes the 11-digit check iff 11 digits were typed. |
| EmployeeForm.FuncionarioDialog.constructor | src/components/funcionarios/funcionario-dialog.tsx:34-57 | An empty form with status ATIVO, and no error. |
| EmployeeForm.FuncionarioDialog.HandleInputChange | src/components/funcionarios/funcionario-dialog.tsx:93-103 | Only the named field changes, and any error is cleared. |
| EmployeeForm.FuncionarioDialog.TypeCpf | src/components/funcionarios/funcionario-dialog.tsx:296 | The CPF field takes the masked text. |
| EmployeeForm.FuncionarioDialog.TypeCep | src/components/funcionarios/funcionario-dialog.tsx:465 | The CEP field takes the masked text. |
| EmployeeForm.FuncionarioDialog.CheckBeforeSend | src/components/funcionarios/funcionario-dialog.tsx:145-152 | The request is sent iff validation passes; the error shown is the validation result and the form is unchanged. |
| Common.BlankIffTrimEmpty | src/components/funcionarios/funcionario-dialog.tsx:106 | `!s.trim()` holds exactly when every character is whitespace. |
| Common.TrimStart | src/components/funcionarios/funcionario-dialog.tsx:106-119 | The result is a suffix of the text, no longer than it, that does not start with whitespace. |
| Common.TrimEnd | src/components/funcionarios/funcionario-dialog.tsx:106-119 | The result is a prefix of the text, no longer than it, that does not end with whitespace. |
| Common.Trim | src/components/ferias/status-change-dialog.tsx:144 | `s.trim()` is no longer than s and neither starts nor ends with whitespace. |
| Common.IsBlank | src/components/ferias/status-change-dialog.tsx:153 | `!s.trim()`: every character is whitespace (BlankIffTrimEmpty ties it to Trim). |
| Common.DigitsOf | src/components/funcionarios/funcionario-dialog.tsx:128 | `replace(/\D/g, '')` leaves only digits and never lengthens the text. |
| Common.DigitsOfAppend | src/components/funcionarios/funcionario-dialog.tsx:128 | Removing non-digits distributes over concatenation. |
| Common.DigitsOfDigits | src/components/funcionarios/funcionario-dialog.tsx:225 | Removing non-digits from digits changes nothing. |
| Common.OrNullNormalises | src/app/api/funcionarios/route.ts:125-137 | `x \|\| null` keeps a truthy value and turns a falsy one into null. |
| Common.Truthy | src/app/api/salarios/historico/route.ts:65 | A string field is truthy when present and non-empty. |
| Common.OrElse | src/app/api/salarios/historico/route.ts:108 | `x \|\| d`: a truthy x wins, and the result is empty only when d is. |
| Common.OrNull | src/app/api/funcionarios/route.ts:125-137 | `x \|\| null`: OrNullNormalises states it. |
| Common.DedupSpec | src/components/salarios/relatorio-salarial-dialog.tsx:76 | `[...new Set(s)]` holds each value of s exactly once. |
| Common.DedupAppend | src/components/salarios/relatorio-salarial-dialog.tsx:76 | A value already seen adds nothing, and a new value goes at the end (first-appearance order). |
| Common.FirstIndex | src/components/salarios/relatorio-salarial-dialog.tsx:76 | The result is a position of the value, and no earlier position holds it. |
| Common.DedupOrder | src/components/salarios/relatorio-salarial-dialog.tsx:76 | `[...new Set(s)]` holds only values of s, and lists them in increasing order of their first position in s. |
| Database.InsertKeepsUnique | src/app/api/funcionarios/route.ts:81-122 | Inserting an employee with a fresh id, an unused CPF and an unused e-mail keeps both columns unique. |
| Database.SalaryUpdateKeepsUnique | src/app/api/salarios/historico/route.ts:123-126 | A salary write-back keeps CPF and e-mail unique. |
| Database.Store.constructor | src/app/api/funcionarios/route.ts:122 | The empty store is valid. |
| EmployeeApi.Create | src/app/api/funcionarios/route.ts:68-149 | A falsy required field gives 400 before any lookup. A duplicate CPF gives 'CPF já cadastrado' before the e-mail check. Success holds iff all checks pass, including a parseable non-negative salary and a valid date. On create: nome, cpf, e-mails, telefone, cargo and departamento come from the body, status defaults to ATIVO, and the optional fields default to null. An address exists iff one was sent, and it copies the sent fields, with complemento defaulting to null. |
| EmployeeApi.CreateKeepsUnique | src/app/api/funcionarios/route.ts:81-122 | An accepted employee keeps CPF and corporate e-mail unique. |
| EmployeeApi.DuplicateCpfRefused | src/app/api/funcionarios/route.ts:81-90 | A body with a stored employee's CPF is always refused. |
| EmployeeApi.Post | src/app/api/funcionarios/route.ts:68-149 | The store gains exactly the new employee when accepted and is unchanged otherwise. The invariant is kept. |
| SalaryHistory.Percentual | src/app/api/salarios/historico/route.ts:95-97 | With a positive old salary, percent × old = (new − old) × 100: positive iff a raise, zero iff unchanged. Otherwise 0. |
| SalaryHistory.ChangeReply | src/app/api/salarios/historico/route.ts:65-108 | A falsy funcionarioId, novoSalario or motivo gives 400. Otherwise an unparseable or negative salary gives 400, even for an unknown employee. Only then does an unknown employee give 404. Success holds iff all pass. The record stores the old salary, the parsed new one, its percentage, and aprovadoPor defaulting to 'Sistema'. |
| SalaryHistory.ZeroSalaryRefused | src/app/api/salarios/historico/route.ts:65-70 | A numeric novoSalario of 0 is refused as a missing field. |
| SalaryHistory.Post | src/app/api/salarios/historico/route.ts:60-128 | On success the change is recorded and only the employee's salary becomes the new one, with no other employee changed. On failure nothing changes, and the invariant is kept. |
| SalaryChangeForm.ApplyRaise | src/components/salarios/alteracao-salarial-dialog.tsx:82-86 | Value mode raises by exactly x; percent mode raises by x percent of the current salary. |
| SalaryChangeForm.CalcularNovoSalario | src/components/salarios/alteracao-salarial-dialog.tsx:77-87 | An empty or unparseable input returns the current salary; otherwise the raise is applied. |
| SalaryChangeForm.PercentOf | src/components/salarios/alteracao-salarial-dialog.tsx:98 | With a positive salary, the percent is the raise in percent of it; otherwise 0. |
| SalaryChangeForm.ModesAgree | src/components/salarios/alteracao-salarial-dialog.tsx:90-114 | The percent filled in from a value raise gives back the same new salary, and the value filled in from a percent raise does too. |
| SalaryChangeForm.FindById | src/components/salarios/alteracao-salarial-dialog.tsx:92 | The found employee has the id, and there is none exactly when no employee has it. |
| SalaryChangeForm.SubmitError | src/components/salarios/alteracao-salarial-dialog.tsx:119-133 | Checked in order: employee and motivo, then value or percent present. When both pass, an unparseable or negative new salary gives SALARIO_INVALIDO. The result is None iff all pass. |
| SalaryChangeForm.AlteracaoSalarialDialog.constructor | src/components/salarios/alteracao-salarial-dialog.tsx:44-53 | Every field starts at its initial value. |
| SalaryChangeForm.AlteracaoSalarialDialog.Load | src/components/salarios/alteracao-salarial-dialog.tsx:69 | Exactly the ATIVO employees are offered, and no other field changes. |
| SalaryChangeForm.AlteracaoSalarialDialog.Select | src/components/salarios/alteracao-salarial-dialog.tsx:210 | The selection changes and nothing else. |
| SalaryChangeForm.AlteracaoSalarialDialog.SetMotivo | src/components/salarios/alteracao-salarial-dialog.tsx:321 | The motive changes and nothing else. |
| SalaryChangeForm.AlteracaoSalarialDialog.SetTipoAumento | src/components/salarios/alteracao-salarial-dialog.tsx:249-259 | The raise kind changes and no amount does. |
| SalaryChangeForm.AlteracaoSalarialDialog.SetAprovadoPor | src/components/salarios/alteracao-salarial-dialog.tsx:333 | The approver changes and nothing else. |
| SalaryChangeForm.AlteracaoSalarialDialog.HandleValorAumentoChange | src/components/salarios/alteracao-salarial-dialog.tsx:90-101 | The value takes the typed text. With an employee selected, the new salary and the matching percent are filled in; with none, nothing else changes. |
| SalaryChangeForm.AlteracaoSalarialDialog.HandlePercentualAumentoChange | src/components/salarios/alteracao-salarial-dialog.tsx:103-114 | The percent takes the typed text. With an employee selected, the new salary and the matching value (new − current) are filled in; with none, nothing else changes. |
| SalaryChangeForm.AlteracaoSalarialDialog.HandleSubmit | src/components/salarios/alteracao-salarial-dialog.tsx:116-150 | A failing check shows its message and sends nothing. Otherwise the request carries the selection, the new salary (>= 0), the motive and the approver (default 'Sistema'), and loading starts. No form field changes. |
| SalaryChangeForm.AlteracaoSalarialDialog.CompleteSubmit | src/components/salarios/alteracao-salarial-dialog.tsx:152-175 | Success clears the form; failure shows the message and keeps the form. Loading ends either way. |
| SalaryChangeForm.AlteracaoSalarialDialog.HandleClose | src/components/salarios/alteracao-salarial-dialog.tsx:178-190 | Nothing happens while loading; otherwise every field and the error are reset. |
| SalaryProjection.Project | src/components/salarios/projecoes-salarial-dialog.tsx:89-107 | diferenca = projected − current. Value mode gives diferenca = v, and percent mode gives diferenca × 100 = salary × v. percentualAumento is the raise in percent of a positive salary, and 0 otherwise. |
| SalaryProjection.Projecoes | src/components/salarios/projecoes-salarial-dialog.tsx:82-111 | An empty or unparseable input gives an empty list; otherwise one projection per employee, in order. |
| SalaryProjection.Column | src/components/salarios/projecoes-salarial-dialog.tsx:119-123 | One field of every projection, in order. |
| SalaryProjection.EstatisticasOf | src/components/salarios/projecoes-salarial-dialog.tsx:117-125 | totalFuncionarios is the count. Every figure is 0 for an empty list, and percentualMedio is the mean percent otherwise. |
| SalaryProjection.SumPointwise | src/components/salarios/projecoes-salarial-dialog.tsx:119-121 | Termwise sums add up. |
| SalaryProjection.SumsInRatio | src/components/salarios/projecoes-salarial-dialog.tsx:119-121 | Terms in a fixed ratio have sums in that ratio. |
| SalaryProjection.CostsAddUp | src/components/salarios/projecoes-salarial-dialog.tsx:117-125 | custoProjetado = custoAtual + diferencaTotal for every projection list. |
| SalaryProjection.ValueRaiseCost | src/components/salarios/projecoes-salarial-dialog.tsx:95-121 | A value raise v costs v per employee in total. |
| SalaryProjection.TotalOfEqualTerms | src/components/salarios/projecoes-salarial-dialog.tsx:121 | Equal raises add up to that raise times the count. |
| SalaryProjection.PercentRaiseCost | src/components/salarios/projecoes-salarial-dialog.tsx:93-121 | A percent raise v costs v percent of the current payroll. |
| SalaryProjection.TotalsInRatio | src/components/salarios/projecoes-salarial-dialog.tsx:119-121 | Raises that are each v percent of their salary total v percent of the payroll. |
| SalaryProjection.ValueTerms | src/components/salarios/projecoes-salarial-dialog.tsx:95-98 | Each value-mode difference is v. |
| SalaryProjection.PercentTerms | src/components/salarios/projecoes-salarial-dialog.tsx:93-98 | Each percent-mode difference is v percent of its salary. |
| SalaryProjection.PercentRaiseMean | src/components/salarios/projecoes-salarial-dialog.tsx:99-124 | With all salaries positive, a percent raise v shows v as the mean percent. |
| SalaryProjection.ProjecoesDialog.constructor | src/components/salarios/projecoes-salarial-dialog.tsx:49-54 | No employees, percent mode, empty input, empty list; the list is in sync with the inputs. |
| SalaryProjection.ProjecoesDialog.Load | src/components/salarios/projecoes-salarial-dialog.tsx:73 | Only ATIVO employees are loaded, and the list is recomputed from them. |
| SalaryProjection.ProjecoesDialog.SetValor | src/components/salarios/projecoes-salarial-dialog.tsx:113-115 | The raise changes and the list is recomputed. |
| SalaryProjection.ProjecoesDialog.SetTipo | src/components/salarios/projecoes-salarial-dialog.tsx:113-115 | The kind changes and the list is recomputed. |
| SalaryProjection.ProjecoesDialog.HandleClose | src/components/salarios/projecoes-salarial-dialog.tsx:127-133 | The mode returns to percent and the input, the list and the error are cleared, consistently with the inputs. |
| Records.Salaries | src/components/salarios/relatorio-salarial-dialog.tsx:84 | The salaries, one per employee, in order. |
| Aggregates.Max | src/components/salarios/relatorio-salarial-dialog.tsx:83-85 | `Math.max(...s)` bounds every element and is one of them. |
| Aggregates.Min | src/components/salarios/relatorio-salarial-dialog.tsx:86-88 | `Math.min(...s)` is below every element and is one of them. |
| Aggregates.SumAppend | src/components/salarios/relatorio-salarial-dialog.tsx:89 | Sums add up over concatenation. |
| Aggregates.MeanBetween | src/components/salarios/relatorio-salarial-dialog.tsx:80-88 | min <= mean <= max, and the sum is the mean times the count. |
| Aggregates.Mean | src/components/salarios/relatorio-salarial-dialog.tsx:80-82 | The sum over the count, for a non-empty list. MeanBetween and MeanWithin bound it. |
| Aggregates.MeanWithin | src/components/salarios/relatorio-salarial-dialog.tsx:80-82 | Bounds on every term bound the mean. |
| Aggregates.SumNonNegative | src/components/salarios/relatorio-salarial-dialog.tsx:89 | A sum of non-negative amounts is non-negative. |
| SalaryReport.Loaded | src/components/salarios/relatorio-salarial-dialog.tsx:63 | Exactly the ATIVO employees are loaded. |
| SalaryReport.Filtered | src/components/salarios/relatorio-salarial-dialog.tsx:72-74 | "todos" keeps every employee; any other value keeps exactly those of that department. |
| SalaryReport.Departamentos | src/components/salarios/relatorio-salarial-dialog.tsx:76 | Each department of the loaded employees appears exactly once. |
| SalaryReport.DepartamentosOrder | src/components/salarios/relatorio-salarial-dialog.tsx:76 | Departments are listed in the order in which they first appear among the loaded employees: an earlier department's first employee comes before a later one's. |
| SalaryReport.ComputeEstatisticas | src/components/salarios/relatorio-salarial-dialog.tsx:78-90 | For an empty list every figure is 0. Otherwise totalFolha is the sum and salarioMedio = totalFolha / count, with menor <= medio <= maior; maior and menor are salaries in the list and bound all of them. |
| SalaryReport.SalaryExtremes | src/components/salarios/relatorio-salarial-dialog.tsx:83-88 | The greatest and least salary are salaries of listed employees and bound every salary. |
| SalaryReport.PayrollIsMeanTimesCount | src/components/salarios/relatorio-salarial-dialog.tsx:80-89 | The payroll is the average times the headcount. |
| SalaryReport.Badge | src/components/salarios/relatorio-salarial-dialog.tsx:237 | The badge reads 'Acima da média' iff the average is positive and the salary is above it; otherwise 'Abaixo da média'. |
| SalaryReport.SomeoneNotAbove | src/components/salarios/relatorio-salarial-dialog.tsx:237 | In a non-empty report the lowest-paid employee is never above the average. |
| SalaryReport.Report | src/components/salarios/relatorio-salarial-dialog.tsx:72-90 | The report counts at most the fetched employees, and with "todos" exactly the active ones. |
| SalaryStats.PositiveSalaries | src/app/api/salarios/stats/route.ts:27 | A salary is listed iff it is greater than 0 and belongs to some employee. |
| SalaryStats.StatsOf | src/app/api/salarios/stats/route.ts:29-36 | With no positive salary, average/max/min/total are 0. Otherwise 0 < min <= average <= max, average = total / count, and every salary lies between min and max. |
| SalaryStats.ComputeStats | src/app/api/salarios/stats/route.ts:11-36 | totalFuncionarios counts the active employees, funcionariosComSalario is at most that, and every positive active salary lies between min and max. |
| SalaryStats.UnpaidFiguresZero | src/app/api/salarios/stats/route.ts:31-34 | With no positive salary every figure but the headcount is 0. |
| SalaryStats.PaidFiguresOrdered | src/app/api/salarios/stats/route.ts:31-35 | With a positive salary, 0 < min <= average <= max and total = average × funcionariosComSalario. |
| SalaryStats.UnpaidChangesOnlyHeadcount | src/app/api/salarios/stats/route.ts:27-35 | An active employee without a positive salary raises the headcount and changes no other figure. |
| SalaryStats.UnpaidNotListed | src/app/api/salarios/stats/route.ts:27 | A salary <= 0 never enters the list. |
| Dates.DayNumberOrder | src/components/ferias/ferias-dialog.tsx:81-83 | Day numbers order dates as the calendar does, and are injective. |
| Dates.ParseIsoOfIso | src/components/ferias/ferias-dialog.tsx:79-80 | Parsing the text of a date gives the date back. |
| Dates.ParseIso | src/components/ferias/ferias-dialog.tsx:79-80 | A text that parses is ten characters long and names a valid calendar date. |
| Dates.InclusiveDays | src/components/ferias/ferias-dialog.tsx:81-83 | The day count of a range is at least 1 unless the end is before the start. It is exactly 1 for a single day, and at least 2 when the start is before the end. |
| Dates.IsoOfParseIso | src/components/ferias/ferias-dialog.tsx:79-80 | A text that parses is the text of its date. |
| Dates.IsoOrder | src/components/ferias/ferias-dialog.tsx:99 | Comparing `YYYY-MM-DD` texts as strings orders them as the calendar does, and equal texts mean equal dates. |
| Dates.LexLessPad | src/components/ferias/ferias-dialog.tsx:99 | Equal-width zero-padded numbers compare as strings as they do as numbers. |

## Left out

- The clock is an input. `new Date()`, the 365.25-day year behind "whole years worked" and the current month and year are parameters, not computed. The floating-point `Math.floor` of elapsed milliseconds is therefore not modelled, nor is the local-time `getMonth`/`getFullYear` of a stored date (the chart compares the stored calendar day).
- Parsers are parameters. `parseFloat`, `parseInt` and `new Date(text)` are abstract functions returning an optional value, so NaN and an invalid date become `None`. Only the `YYYY-MM-DD` texts of date inputs are parsed concretely.
- Number formatting is not modelled: `toString`, `toFixed(2)` and `toLocaleString`. An input the salary change dialog fills in holds the computed number, not its printed text.
- Money is exact `real`. IEEE rounding is not modelled.
- Fetching, loading flags of data fetches, alerts, timeouts and rendering are left out. The dialogs' state is modelled only as far as the rules above read or write it.
- The ORM is replaced by maps from id to record, so Prisma's unique constraints, `include`/`select` projections of replies and `orderBy` are not modelled. Two concurrent creations with the same CPF, which only the database constraint would stop, are not modelled. Ids and timestamps the database generates are parameters.
- A database failure during a handler (the 500 replies of the catch blocks) is modelled only where the input causes it: the vacation POST's unparseable dates or day count give 500.
- Strings are sequences of code points. JavaScript's UTF-16 units and `trim` on surrogate pairs are not distinguished.
- EquipmentTable.TableInvariant, EquipmentTable.ReturnKeepsTableValid and EquipmentTable.Table.Patch cover only the writers of the equipment table in src/app/api/equipamentos/route.ts (the seed, POST and PATCH). The PUT and DELETE of src/app/api/equipamentos/[id]/route.ts write the same shared array and are not part of this model. That PUT overwrites tipo, descricao, marca, modelo and numeroSerie, and it auto-returns an item set to EM_REPARO or DANIFICADO, logging a history entry numbered from its own counter starting at 1000. That DELETE removes an item. So the freshness of logged history ids, and the bound on them in the invariant, are proved only for route.ts's own operations; after an auto-return the bound can fail, and once nextHistId reaches 1000 a logged id can repeat one that PUT issued. Record-id distinctness is unaffected, since PUT keeps the record's id.
- EquipmentStats.AccFinal: `Object.values` lists integer-like keys first in numeric order; the model assumes insertion order, which is what it gives for the non-numeric borrower ids the table uses.
- VacationEntitlement.CalcularDireitoFerias: the employee's requests and `anosTrabalhados` are inputs; the two fetches that load them are not modelled.
- SalaryChangeForm.AlteracaoSalarialDialog.Select: choosing another employee does not recompute the new salary from the typed raise, as in the dialog; the model keeps the previous figures.
- The em-haver page's `Math.floor(anosTrabalhados)` is applied to a value that is already a whole number, so `RowOf` multiplies the given years directly.
