# Gestor Operaciones CE — a verified model of its decision logic

Gestor Operaciones CE is a small Streamlit tool for foreign-trade staff. It
registers shipments ("operaciones"), shows them with derived scheduling fields,
and raises the day's reminders. This project models in Dafny the logic of
`gestor_operaciones.py` that makes decisions, and proves properties about it.
That logic is:

- the best-invoicing-day advisor `sugerir_mejor_dia`. It compares the official
  exchange rate (TRM) on the day before arrival, the arrival day and the day
  after. A manual "today" or "tomorrow" rate may override the arrival-day or
  day-after slot. It advises the day with the highest rate, and on a tie the
  earliest of those days;
- the "Alertas" page. Per shipment it raises a cargo-arrival alert, a
  freight-certification alert (seven days before arrival) and an invoicing
  alert (on the advised day), each when that date is today. The collected list
  is then stably sorted by date;
- the table operations: registering appends a row, deleting removes the rows
  whose `Consecutivo` is selected, and the "Ver Operaciones" view computes the
  certification date and the days left to arrival;
- the sidebar trend: "Sube", "Baja" or "Igual" from tomorrow's rate minus
  today's.

Modelling choices:

- Dates are integer day numbers.
- Rates are `real`, because the code only compares them, subtracts them (the
  sidebar trend) and tests them for zero.
- The official-rate web service (`obtener_trm_oficial` in `scraper.py`) is a
  parameter `lookup: int -> Option<real>`. The view and the alert loop call the
  advisor with the sidebar's two rates, which are always numbers there, so they
  pass them as `Some(...)`.

Files:

- `rates.dfy`: `Option`, and a rate's truthiness and override.
- `advisor.dfy`: the advisor.
- `sorting.dfy`: Python's stable `sorted` on an integer key.
- `operations.dfy`: the table operations and the view loop.
- `alerts.dfy`: the alert loop and the shown alert list.
- `sidebar.dfy`: the trend.

Points worth stating about what the code does:

- Only `None` rates are dropped. A rate of zero or below is still a candidate
  (`NonPositiveRatesAreEligible`).
- Each advice looks the three rates up afresh. A day without a published rate
  stays `None` unless a truthy manual value replaces it.
- The alert page raises three kinds of alert: cargo arrival, freight
  certification and invoicing.
- Registering appends even when the id is already in the table
  (`RegisterKeepsDuplicates`).
- The arrival date is parsed without a guard, so a stored date that cannot be
  parsed raises. Parsing is outside the model, where arrivals are already day
  numbers.

## Model

| member | source | states |
|---|---|---|
| `Rates.Truthy` | gestor_operaciones.py:84-87 | An optional rate is truthy exactly when it is neither `None` nor zero, as Python's `if` tests it. |
| `Rates.Override` | gestor_operaciones.py:84-87 | A truthy manual value replaces the looked-up rate and a falsy one leaves it. So an override never turns a published rate into `None`. |
| `Advisor.ValidQuotes` | gestor_operaciones.py:95-97 | The filtered dictionary is empty exactly when all three candidates are `None`, so "Sin datos" is returned exactly then. |
| `Advisor.ValidQuotesKeepsExactlyTheValues` | gestor_operaciones.py:95 | The comprehension keeps every entry whose rate is not `None`, zero and negative rates included, and adds no entry. |
| `Advisor.FirstMaxIndex` | gestor_operaciones.py:99 | `max` with a key returns a position whose rate is at least every rate, and every earlier position has a strictly lower rate, so it is the first maximum. |
| `Advisor.FirstBestSlot` | gestor_operaciones.py:95-100 | Filtering out `None` and then taking the first maximum picks the table slot that has a rate, is maximal, and beats every earlier slot strictly. |
| `Advisor.FilterThenMaxIsFirstBest` | gestor_operaciones.py:95-100 | The same fact stated as "there is such a slot", for use in the advisor's contract. |
| `Advisor.FirstBestIsUnique` | gestor_operaciones.py:99 | At most one slot is the first best one, so the advisor's contract determines the advised day. |
| `Advisor.Suggest` | gestor_operaciones.py:75-101 | The table is day before, arrival day, day after, in that order. The day before is always the looked-up rate. A truthy manual "today" or "tomorrow" value replaces the arrival-day or day-after slot, and a falsy one leaves it as looked up. The result is "Sin datos" with 0.0 exactly when all three are `None`. Otherwise the day is one of the three, its slot is the first best one, and the returned rate is that slot's rate. |
| `Advisor.ArrivalDayWinsExample` | gestor_operaciones.py:89-101 | Rates 100, 150 and 120 advise the arrival day at 150. |
| `Advisor.ManualOverrideWinsExample` | gestor_operaciones.py:84-87 | A manual 200 for the arrival day replaces the looked-up 150 and is advised at 200. |
| `Advisor.TieGoesToDayBefore` | gestor_operaciones.py:89-99 | With three equal rates, the day before arrival (the first dictionary key) is advised. |
| `Advisor.FalsyOverridesAreIgnored` | gestor_operaciones.py:84-87 | `None` or zero overrides give the same result as no override at all. |
| `Advisor.NonPositiveRatesAreEligible` | gestor_operaciones.py:95-97 | A single rate that is zero or negative is still advised, because only `None` is filtered out. |
| `StableSort.Insert` | gestor_operaciones.py:256 | Insertion adds exactly one element (a multiset equality) and keeps a sorted list sorted. |
| `StableSort.SortBy` | gestor_operaciones.py:256 | `sorted` returns a permutation of its input that is ordered by the key. |
| `StableSort.SortIsStable` | gestor_operaciones.py:256 | For every key value, the elements with that key keep their relative order. |
| `StableSort.SortedIsFixed` | gestor_operaciones.py:256 | Sorting a list that is already ordered by the key returns it unchanged. |
| `Operations.Register` | gestor_operaciones.py:139-148 | Saving adds exactly one row, the new one, at the end, and every existing row is kept in place. |
| `Operations.RegisterKeepsDuplicates` | gestor_operaciones.py:147 | A repeated `Consecutivo` is neither rejected nor overwritten: its row count goes up by one. |
| `Operations.Delete` | gestor_operaciones.py:198 | A row is kept if and only if it was in the table and its id is not selected. |
| `Operations.DeleteDistributes` | gestor_operaciones.py:198 | The filter works row by row, so kept rows stay in their original order. |
| `Operations.DeleteNothingSelected` | gestor_operaciones.py:198 | When none of the table's ids is selected, the table is unchanged. |
| `Operations.RegisterThenDelete` | gestor_operaciones.py:198 | Deleting the id of a freshly registered row (one whose id was new) gives back the table as it was before. |
| `Operations.CertificationDate` | gestor_operaciones.py:173 | The certification date lies before the arrival, exactly seven days earlier. The alert loop at line 223 uses the same date. |
| `Operations.ViewOf` | gestor_operaciones.py:172-186 | A view row keeps the record's stored fields. Its certification date is arrival minus 7 and its countdown is zero on the arrival day. Its advised day is within one day of arrival, or "Sin datos" at 0.0. |
| `Operations.BuildView` | gestor_operaciones.py:171-186 | The view has one row per table row, in order. Each row's certification date is arrival minus 7, `today` plus the days left equals the arrival, and its advice is the advisor's. |
| `Alerts.AdvisorWith` | gestor_operaciones.py:224 | The advisor as the alert loop calls it, with the lookup and the sidebar's two rates fixed, never advises a day more than one day away from the arrival. |
| `Alerts.RowAlerts` | gestor_operaciones.py:226-253 | One record raises at most three alerts, each dated today and carrying the record's `Consecutivo` and `Cliente`. |
| `Alerts.AlertsOf` | gestor_operaciones.py:219-253 | The collected list, record by record, holds at most three alerts per record. |
| `Alerts.RowAlertsSpec` | gestor_operaciones.py:221-253 | Per record, each alert kind appears at most once, in the order arrival, certification, invoicing. A kind is raised exactly when its date (arrival, arrival minus 7, advised day) is today. Every alert is dated today and has the record's id and client, and only the arrival alert lacks `Fecha de Arribo`. Arrival and certification never both fire. Certification and invoicing never both fire. A record raises at most two alerts. |
| `Alerts.AlertsAreDatedToday` | gestor_operaciones.py:221-253 | Every collected alert has `Fecha` equal to today. |
| `Alerts.AlertsOfConcat` | gestor_operaciones.py:221-253 | Alerts follow record order: the alerts of two tables, one after the other, are the alerts of the first followed by those of the second. |
| `Alerts.CollectAlerts` | gestor_operaciones.py:219-253 | The loop builds exactly the record-by-record alert list. |
| `Alerts.ShownAlerts` | gestor_operaciones.py:255-256 | After the stable sort by `Fecha`, the list equals the collected list unchanged, and every shown alert is dated today. |
| `Alerts.ViewAgreesWithAlerts` | gestor_operaciones.py:221-253 | A record raises the arrival alert exactly when its view shows 0 days left. It raises the certification alert exactly when 7 days are left. It raises the invoicing alert exactly when the view advises today. |
| `Alerts.CertificationDayRaisesOnlyCertification` | gestor_operaciones.py:236-253 | Seven days before arrival a record raises exactly one alert, the freight certification, whatever the rates. |
| `Sidebar.TrendOf` | gestor_operaciones.py:42-48 | "Sube" exactly when tomorrow minus today is positive, "Baja" exactly when it is negative, "Igual" exactly when the two rates are equal. |
| `Sidebar.TrendIsAntisymmetric` | gestor_operaciones.py:42-48 | Swapping the two rates turns "Sube" into "Baja" and keeps "Igual". |
| `Sidebar.TrendPredictsAdvice` | gestor_operaciones.py:84-99 | Suppose both sidebar rates are nonzero and the day before arrival has no published rate. Then the advisor picks the day after exactly when the trend is "Sube", and the arrival day otherwise. |

## Left out

- `obtener_trm_oficial` (`scraper.py`): the HTTP request, the JSON parsing, the comma stripping and `round(..., 2)`. It is the `lookup` parameter, a total and pure function of the day. A lookup that gave different answers for the same day is not captured.
- The lookup's failures are not modelled: in the source it can raise instead of returning `None`. `requests.get` (scraper.py:6) is outside any `try`. `.json()` (scraper.py:9) raises on a body that is not JSON. `datos[0]['valor']` (scraper.py:11) can raise `KeyError`, and `float(valor)` (scraper.py:13) can raise `ValueError`. `sugerir_mejor_dia` calls the lookup without a `try` (gestor_operaciones.py:80-82), and the pages catch only `FileNotFoundError` (gestor_operaciones.py:208, 270), so such a failure aborts the page. The request also has no timeout, and a lookup that hangs is not modelled either.
- Floating point: rates are exact reals. NaN, infinities and rounding are not modelled.
- Date parsing and formatting (`pd.to_datetime`, `strftime`, the locale set-up). Arrivals are already day numbers. An unparsable stored date raises in the source, which the model does not represent.
- The Streamlit interface: menus, form widgets, the sidebar inputs and their defaults (lines 32-40), messages, `st.rerun`, and the HTML rendering of alerts. The rendering at line 264 reads `Fecha de Arribo`, which the arrival alert is built without. The model records that field as absent (`None`) and does not model the rendering that would fail on it.
- The text shown after saving (lines 150-158) and in the view's "Mejor día" column. Only the advice and its rate, which `Advisor.Suggest` gives, are modelled.
- CSV persistence: reading and writing `operaciones.csv`, the `FileNotFoundError` fallbacks, and `guardar_alerta`, which writes `alertas.csv` and is never called.
- `Operations.Register`: the table's column types after a CSV round trip (pandas may read `Consecutivo` back as a number) are not modelled. Ids are strings.
- `Alerts.CollectAlerts`: the advisor is passed in as a function value, `Alerts.AdvisorWith`, built from the lookup and the sidebar's two rates. The source calls `sugerir_mejor_dia` directly with the same arguments.
