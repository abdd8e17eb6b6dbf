/** `DashboardUseCases` (src/domain/usecases/DashboardUseCases.ts): both
  * queries refuse an empty user id and otherwise hand their arguments to
  * the repository. The period argument is declared `= 'month'`; an omitted
  * period is `None`. */
module DashboardUseCases {
  import opened Wrappers
  import opened Entities

  const USER_ID_REQUIRED: string := "ID do usuário é obrigatório"

  /** A call on `IDashboardRepository`. */
  datatype RepositoryCall =
    | FetchDashboardData(userId: string, period: Period, selectedMonth: string)
    | FetchChartData(userId: string, period: Period, selectedMonth: string)

  /** `getDashboardData(userId, period = 'month', selectedMonth)` */
  function GetDashboardData(userId: string, period: Option<Period>, selectedMonth: string): (r: Result<RepositoryCall>)
    ensures r.Err? <==> userId == ""
    ensures r.Err? ==> r.message == USER_ID_REQUIRED
    ensures r.Ok? ==> r.value.FetchDashboardData? && r.value.userId == userId && r.value.selectedMonth == selectedMonth
    ensures r.Ok? && period.Some? ==> r.value.period == period.value
    ensures r.Ok? && period.None? ==> r.value.period == Month
  {
    if userId == "" then Err(USER_ID_REQUIRED)
    else Ok(FetchDashboardData(userId, OrMonth(period), selectedMonth))
  }

  /** `getChartData(userId, period = 'month', selectedMonth)` */
  function GetChartData(userId: string, period: Option<Period>, selectedMonth: string): (r: Result<RepositoryCall>)
    ensures r.Err? <==> userId == ""
    ensures r.Err? ==> r.message == USER_ID_REQUIRED
    ensures r.Ok? ==> r.value.FetchChartData? && r.value.userId == userId && r.value.selectedMonth == selectedMonth
    ensures r.Ok? && period.Some? ==> r.value.period == period.value
    ensures r.Ok? && period.None? ==> r.value.period == Month
  {
    if userId == "" then Err(USER_ID_REQUIRED)
    else Ok(FetchChartData(userId, OrMonth(period), selectedMonth))
  }

  /** The two queries apply the same rule: they fail together, with the
    * same message, and otherwise forward the same arguments. */
  lemma {:induction false} SameGuard(userId: string, period: Option<Period>, selectedMonth: string)
    ensures GetDashboardData(userId, period, selectedMonth).Err? == GetChartData(userId, period, selectedMonth).Err?
    ensures GetDashboardData(userId, period, selectedMonth).Err? ==>
      GetDashboardData(userId, period, selectedMonth) == GetChartData(userId, period, selectedMonth)
    ensures GetDashboardData(userId, period, selectedMonth).Ok? ==>
      var d, c := GetDashboardData(userId, period, selectedMonth).value, GetChartData(userId, period, selectedMonth).value;
      d.userId == c.userId && d.period == c.period && d.selectedMonth == c.selectedMonth
  {
  }

  /** Omitting the period is the same as passing `month`. */
  lemma {:induction false} DefaultPeriodIsMonth(userId: string, selectedMonth: string)
    ensures GetDashboardData(userId, None, selectedMonth) == GetDashboardData(userId, Some(Month), selectedMonth)
    ensures GetChartData(userId, None, selectedMonth) == GetChartData(userId, Some(Month), selectedMonth)
  {
  }
}
