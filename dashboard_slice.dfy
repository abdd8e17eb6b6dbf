/** The dashboard state (src/store/slices/dashboardSlice/index.ts): the
  * selected period, month and year, the loaded data and charts, and the
  * request flags. The thunks resolve the user id from the auth state with
  * fallbacks whose answers are parameters. */
module DashboardSlice {
  import opened Wrappers
  import opened Entities

  const NOT_AUTHENTICATED: string := "Usuário não autenticado"
  const DATA_ERROR: string := "Erro ao carregar dados do dashboard"
  const CHARTS_ERROR: string := "Erro ao carregar dados dos gráficos"

  /** The part of the auth state the thunks read. */
  datatype AuthView = AuthView(userId: Option<string>, token: Option<string>, isAuthenticated: bool)

  /** The session fallback applies only to a signed-in state that lost its
    * user record. */
  predicate UsesFallback(a: AuthView)
  {
    !Truthy(a.userId) && Truthy(a.token) && a.isAuthenticated
  }

  /** The user id `fetchDashboardData` works with; `session` is what
    * `SessionManager.getCurrentUserId` answers (`Err` when it throws). */
  function DataUser(a: AuthView, session: Result<Option<string>>): (u: Option<string>)
    ensures !UsesFallback(a) ==> u == a.userId
    ensures UsesFallback(a) ==> u == (if session.Ok? then session.value else a.userId)
  {
    if UsesFallback(a) && session.Ok? then session.value else a.userId
  }

  /** The user id `fetchChartData` works with: as for the data, and then
    * the provider's current user when the session has none. */
  function ChartUser(a: AuthView, session: Result<Option<string>>, currentUid: Option<string>): (u: Option<string>)
    ensures !UsesFallback(a) ==> u == a.userId
    ensures UsesFallback(a) && Truthy(DataUser(a, session)) ==> u == DataUser(a, session)
    ensures UsesFallback(a) && !Truthy(DataUser(a, session)) ==> u == (if currentUid.Some? then currentUid else DataUser(a, session))
  {
    if !UsesFallback(a) then a.userId
    else
      var fromSession := DataUser(a, session);
      if !Truthy(fromSession) && currentUid.Some? then currentUid else fromSession
  }

  /** Neither thunk reaches the use case with a falsy user id, and a state
    * holding one never consults a fallback. */
  lemma {:induction false} UserResolution(a: AuthView, session: Result<Option<string>>, currentUid: Option<string>)
    ensures Truthy(a.userId) ==> DataUser(a, session) == a.userId && ChartUser(a, session, currentUid) == a.userId
    ensures !(Truthy(a.token) && a.isAuthenticated) ==>
              (Truthy(DataUser(a, session)) <==> Truthy(a.userId)) &&
              (Truthy(ChartUser(a, session, currentUid)) <==> Truthy(a.userId))
    ensures Truthy(DataUser(a, session)) ==> Truthy(ChartUser(a, session, currentUid))
  {
  }

  class DashboardState {
    var data: Option<DashboardData>
    var charts: seq<ChartData>
    var loading: bool
    var error: Option<string>
    var selectedPeriod: Period
    var selectedMonth: string
    var selectedYear: string

    /** `currentMonth` and `currentYear` are the clock's `YYYY-MM` and
      * year at start-up. */
    constructor (currentMonth: string, currentYear: string)
      ensures data.None? && charts == [] && !loading && error.None?
      ensures selectedPeriod == Month && selectedMonth == currentMonth && selectedYear == currentYear
    {
      data := None;
      charts := [];
      loading := false;
      error := None;
      selectedPeriod := Month;
      selectedMonth := currentMonth;
      selectedYear := currentYear;
    }

    method SetSelectedPeriod(p: Period)
      modifies this
      ensures selectedPeriod == p
      ensures selectedMonth == old(selectedMonth) && selectedYear == old(selectedYear)
      ensures data == old(data) && charts == old(charts) && loading == old(loading) && error == old(error)
    {
      selectedPeriod := p;
    }

    method SetSelectedMonth(m: string)
      modifies this
      ensures selectedMonth == m
      ensures selectedPeriod == old(selectedPeriod) && selectedYear == old(selectedYear)
      ensures data == old(data) && charts == old(charts) && loading == old(loading) && error == old(error)
    {
      selectedMonth := m;
    }

    method SetSelectedYear(y: string)
      modifies this
      ensures selectedYear == y
      ensures selectedPeriod == old(selectedPeriod) && selectedMonth == old(selectedMonth)
      ensures data == old(data) && charts == old(charts) && loading == old(loading) && error == old(error)
    {
      selectedYear := y;
    }

    method ClearDashboardData()
      modifies this
      ensures data.None? && charts == []
      ensures selectedPeriod == old(selectedPeriod) && selectedMonth == old(selectedMonth) && selectedYear == old(selectedYear)
      ensures loading == old(loading) && error == old(error)
    {
      data := None;
      charts := [];
    }

    /** The pending case of both thunks. */
    method Pending()
      modifies this
      ensures loading && error.None?
      ensures data == old(data) && charts == old(charts)
      ensures selectedPeriod == old(selectedPeriod) && selectedMonth == old(selectedMonth) && selectedYear == old(selectedYear)
    {
      loading := true;
      error := None;
    }

    method DataFulfilled(d: DashboardData)
      modifies this
      ensures !loading && data == Some(d)
      ensures charts == old(charts) && error == old(error)
      ensures selectedPeriod == old(selectedPeriod) && selectedMonth == old(selectedMonth) && selectedYear == old(selectedYear)
    {
      loading := false;
      data := Some(d);
    }

    method ChartsFulfilled(c: seq<ChartData>)
      modifies this
      ensures !loading && charts == c
      ensures data == old(data) && error == old(error)
      ensures selectedPeriod == old(selectedPeriod) && selectedMonth == old(selectedMonth) && selectedYear == old(selectedYear)
    {
      loading := false;
      charts := c;
    }

    /** Both rejected cases: `action.error.message || fallback`. */
    method Rejected(message: Option<string>, fallback: string)
      modifies this
      ensures !loading && error == Some(OrElse(message, fallback))
      ensures data == old(data) && charts == old(charts)
      ensures selectedPeriod == old(selectedPeriod) && selectedMonth == old(selectedMonth) && selectedYear == old(selectedYear)
    {
      loading := false;
      error := Some(OrElse(message, fallback));
    }

    /** `fetchDashboardData(period)` from dispatch to settlement; `load` is
      * what the use case answers for `(userId, period, selectedMonth)`. */
    method FetchDashboardData(period: Period, a: AuthView, session: Result<Option<string>>,
                              load: (string, Period, string) -> Result<DashboardData>)
      modifies this
      ensures var u := DataUser(a, session);
        if !Truthy(u) then error == Some(NOT_AUTHENTICATED) && data == old(data)
        else if load(u.value, period, old(selectedMonth)).Err? then
          error == Some(OrElse(Some(load(u.value, period, old(selectedMonth)).message), DATA_ERROR)) && data == old(data)
        else error.None? && data == Some(load(u.value, period, old(selectedMonth)).value)
      ensures !loading && charts == old(charts)
      ensures selectedPeriod == old(selectedPeriod) && selectedMonth == old(selectedMonth) && selectedYear == old(selectedYear)
    {
      Pending();
      var u := DataUser(a, session);
      if !Truthy(u) {
        Rejected(Some(NOT_AUTHENTICATED), DATA_ERROR);
        return;
      }
      var response := load(u.value, period, selectedMonth);
      if response.Err? {
        Rejected(Some(response.message), DATA_ERROR);
        return;
      }
      DataFulfilled(response.value);
    }

    /** `fetchChartData(period)`, with the provider's current user as the
      * last fallback. */
    method FetchChartData(period: Period, a: AuthView, session: Result<Option<string>>, currentUid: Option<string>,
                          load: (string, Period, string) -> Result<seq<ChartData>>)
      modifies this
      ensures var u := ChartUser(a, session, currentUid);
        if !Truthy(u) then error == Some(NOT_AUTHENTICATED) && charts == old(charts)
        else if load(u.value, period, old(selectedMonth)).Err? then
          error == Some(OrElse(Some(load(u.value, period, old(selectedMonth)).message), CHARTS_ERROR)) && charts == old(charts)
        else error.None? && charts == load(u.value, period, old(selectedMonth)).value
      ensures !loading && data == old(data)
      ensures selectedPeriod == old(selectedPeriod) && selectedMonth == old(selectedMonth) && selectedYear == old(selectedYear)
    {
      Pending();
      var u := ChartUser(a, session, currentUid);
      if !Truthy(u) {
        Rejected(Some(NOT_AUTHENTICATED), CHARTS_ERROR);
        return;
      }
      var response := load(u.value, period, selectedMonth);
      if response.Err? {
        Rejected(Some(response.message), CHARTS_ERROR);
        return;
      }
      ChartsFulfilled(response.value);
    }
  }
}
