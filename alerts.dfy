/**
 * The "Alertas" page: for every operation, the reminders that fall on
 * today — cargo arrival, freight certification seven days before arrival,
 * and the advised invoicing day — sorted by date.
 */
module Alerts {
  import opened Wrappers
  import opened Rates
  import opened Advisor
  import opened Operations
  import StableSort

  /** The `Tipo` of an alert. */
  datatype AlertKind = CargoArrival | FreightCertification | Invoicing

  /**
   * One entry of `alertas`: `Tipo`, `Consecutivo`, `Cliente`, `Fecha` and
   * `Fecha de Arribo`. The arrival alert is built without `Fecha de Arribo`,
   * so that field is `None` for it.
   */
  datatype Alert = Alert(kind: AlertKind, id: string, client: string, date: int, arrivalDate: Option<int>)

  /** The position of a kind in the order the source checks the kinds. */
  function Rank(k: AlertKind): nat {
    match k
    case CargoArrival => 0
    case FreightCertification => 1
    case Invoicing => 2
  }

  /** The sort key at gestor_operaciones.py:256: the alert's `Fecha`. */
  function DateOf(a: Alert): int {
    a.date
  }

  /** The kinds of the alerts in `s`. */
  function KindsOf(s: seq<Alert>): set<AlertKind> {
    set a | a in s :: a.kind
  }

  /** An advisor whose advised day always lies within one day of the arrival. */
  ghost predicate AdvisesNearArrival(advise: int -> Best) {
    forall arrival :: advise(arrival).Day? ==> arrival - 1 <= advise(arrival).day <= arrival + 1
  }

  /**
   * The advisor as the alert loop calls it (gestor_operaciones.py:224): the
   * lookup and the sidebar's two rates are fixed, the arrival varies. It
   * never advises a day more than one day away from the arrival.
   */
  function AdvisorWith(lookup: RateLookup, manualToday: Rate, manualTomorrow: Rate): (advise: int -> Best)
    ensures AdvisesNearArrival(advise)
  {
    arrival => Suggest(arrival, lookup, Some(manualToday), Some(manualTomorrow)).best
  }

  /**
   * The alerts one operation contributes on day `today`, in the order the
   * source appends them: arrival, certification, invoicing. At most one of
   * each, every one dated today and carrying the operation's id and client.
   */
  function RowAlerts(op: Operation, today: int, advise: int -> Best): (r: seq<Alert>)
    ensures |r| <= 3
    ensures forall i :: 0 <= i < |r| ==> r[i].date == today && r[i].id == op.id && r[i].client == op.client
  {
    var best := advise(op.arrival);
    var certification := CertificationDate(op.arrival);
    (if op.arrival == today then [Alert(CargoArrival, op.id, op.client, op.arrival, None)] else [])
    + (if certification == today then [Alert(FreightCertification, op.id, op.client, certification, Some(op.arrival))] else [])
    + (if best.Day? && best.day == today then [Alert(Invoicing, op.id, op.client, best.day, Some(op.arrival))] else [])
  }

  /**
   * What one operation raises: each kind at most once, in check order, and
   * exactly when its date is today; every alert is dated today and carries
   * the operation's id and client. The arrival and certification alerts
   * never fire together, and, for an advisor that stays within one day of
   * arrival, neither do the certification and invoicing alerts.
   */
  lemma RowAlertsSpec(op: Operation, today: int, advise: int -> Best)
    requires AdvisesNearArrival(advise)
    ensures var r := RowAlerts(op, today, advise);
            && (forall a :: a in r ==> a.date == today && a.id == op.id && a.client == op.client)
            && (forall a :: a in r ==> a.arrivalDate == if a.kind == CargoArrival then None else Some(op.arrival))
            && (forall i, j :: 0 <= i < j < |r| ==> Rank(r[i].kind) < Rank(r[j].kind))
            && (CargoArrival in KindsOf(r) <==> op.arrival == today)
            && (FreightCertification in KindsOf(r) <==> CertificationDate(op.arrival) == today)
            && (Invoicing in KindsOf(r) <==> advise(op.arrival) == Day(today))
            && !(CargoArrival in KindsOf(r) && FreightCertification in KindsOf(r))
            && !(FreightCertification in KindsOf(r) && Invoicing in KindsOf(r))
            && |r| <= 2
  {
  }

  /**
   * All alerts of a table, record by record, before sorting: at most three
   * per record.
   */
  function AlertsOf(table: Table, today: int, advise: int -> Best): (r: seq<Alert>)
    ensures |r| <= 3 * |table|
  {
    if table == [] then []
    else AlertsOf(table[..|table| - 1], today, advise) + RowAlerts(table[|table| - 1], today, advise)
  }

  /** Every collected alert is dated today, whatever the advisor says. */
  lemma {:induction false} AlertsAreDatedToday(table: Table, today: int, advise: int -> Best)
    ensures forall a :: a in AlertsOf(table, today, advise) ==> a.date == today
  {
    if table != [] {
      AlertsAreDatedToday(table[..|table| - 1], today, advise);
    }
  }

  /** Alerts follow record order: the alerts of two tables are those of each, one after the other. */
  lemma {:induction false} AlertsOfConcat(t1: Table, t2: Table, today: int, advise: int -> Best)
    ensures AlertsOf(t1 + t2, today, advise) == AlertsOf(t1, today, advise) + AlertsOf(t2, today, advise)
  {
    if t2 == [] {
      assert t1 + t2 == t1;
    } else {
      var init := t2[..|t2| - 1];
      var row := RowAlerts(t2[|t2| - 1], today, advise);
      assert (t1 + t2)[..|t1 + t2| - 1] == t1 + init;
      assert (t1 + t2)[|t1 + t2| - 1] == t2[|t2| - 1];
      assert AlertsOf(t1 + t2, today, advise) == AlertsOf(t1 + init, today, advise) + row;
      AlertsOfConcat(t1, init, today, advise);
      assert AlertsOf(t2, today, advise) == AlertsOf(init, today, advise) + row;
    }
  }

  /** One more record adds its own alerts at the end. */
  lemma AlertsOfStep(table: Table, i: int, today: int, advise: int -> Best)
    requires 0 <= i < |table|
    ensures AlertsOf(table[..i + 1], today, advise) == AlertsOf(table[..i], today, advise) + RowAlerts(table[i], today, advise)
  {
    assert table[..i + 1][..i] == table[..i];
  }

  /** The loop over the table rows that appends to `alertas` (gestor_operaciones.py:221-253). */
  method CollectAlerts(table: Table, today: int, advise: int -> Best) returns (alerts: seq<Alert>)
    ensures alerts == AlertsOf(table, today, advise)
  {
    alerts := [];
    for i := 0 to |table|
      invariant alerts == AlertsOf(table[..i], today, advise)
    {
      var op := table[i];
      var certification := op.arrival - CertificationLeadDays;
      var best := advise(op.arrival);
      ghost var before, added := alerts, [];
      if op.arrival == today {
        var a := Alert(CargoArrival, op.id, op.client, op.arrival, None);
        alerts, added := alerts + [a], added + [a];
      }
      assert alerts == before + added;
      if certification == today {
        var a := Alert(FreightCertification, op.id, op.client, certification, Some(op.arrival));
        alerts, added := alerts + [a], added + [a];
      }
      assert alerts == before + added;
      if best.Day? && best.day == today {
        var a := Alert(Invoicing, op.id, op.client, best.day, Some(op.arrival));
        alerts, added := alerts + [a], added + [a];
      }
      assert alerts == before + added;
      assert added == RowAlerts(op, today, advise);
      AlertsOfStep(table, i, today, advise);
    }
    assert table[..|table|] == table;
  }

  /**
   * The alert list shown: the collected alerts sorted by date. Since they
   * are all dated today, the stable sort leaves them in collection order —
   * record by record, and within a record arrival, certification, invoicing.
   */
  method ShownAlerts(table: Table, today: int, lookup: RateLookup, manualToday: Rate, manualTomorrow: Rate)
    returns (shown: seq<Alert>)
    ensures shown == AlertsOf(table, today, AdvisorWith(lookup, manualToday, manualTomorrow))
    ensures forall a :: a in shown ==> a.date == today
  {
    var advise := AdvisorWith(lookup, manualToday, manualTomorrow);
    var alerts := CollectAlerts(table, today, advise);
    AlertsAreDatedToday(table, today, advise);
    assert StableSort.Sorted(alerts, DateOf) by {
      forall i, j | 0 <= i < j < |alerts| ensures DateOf(alerts[i]) <= DateOf(alerts[j]) {
        assert alerts[i] in alerts && alerts[j] in alerts;
      }
    }
    StableSort.SortedIsFixed(alerts, DateOf);
    shown := StableSort.SortBy(alerts, DateOf);
  }

  /**
   * The table view and the alerts agree: an operation raises the arrival
   * alert when its countdown is 0, the certification alert when it is 7, and
   * the invoicing alert when the view advises today.
   */
  lemma ViewAgreesWithAlerts(op: Operation, today: int, lookup: RateLookup, manualToday: Rate, manualTomorrow: Rate)
    ensures var v := ViewOf(op, today, lookup, manualToday, manualTomorrow);
            var kinds := KindsOf(RowAlerts(op, today, AdvisorWith(lookup, manualToday, manualTomorrow)));
            && (CargoArrival in kinds <==> v.daysToArrival == 0)
            && (FreightCertification in kinds <==> v.daysToArrival == CertificationLeadDays)
            && (Invoicing in kinds <==> v.best == Day(today))
  {
    RowAlertsSpec(op, today, AdvisorWith(lookup, manualToday, manualTomorrow));
  }

  /**
   * Seven days before arrival an operation raises exactly one alert, the
   * freight certification, whatever the rates are.
   */
  lemma CertificationDayRaisesOnlyCertification(op: Operation, today: int, lookup: RateLookup, manualToday: Rate, manualTomorrow: Rate)
    requires op.arrival == today + 7
    ensures RowAlerts(op, today, AdvisorWith(lookup, manualToday, manualTomorrow))
            == [Alert(FreightCertification, op.id, op.client, today, Some(op.arrival))]
  {
  }
}
