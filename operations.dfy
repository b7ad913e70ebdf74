/**
 * The operations table: registering a shipment, deleting the selected ones,
 * and the per-row scheduling fields of the "Ver Operaciones" view.
 */
module Operations {
  import opened Wrappers
  import opened Rates
  import opened Advisor

  /** Days before arrival on which the freight certification (`cert_fletes`) falls. */
  const CertificationLeadDays := 7

  /**
   * One row of the table: `Consecutivo`, `Modalidad`, `Tipo`, `Cliente` and
   * `FechaLlegada` (the arrival date, as a day number).
   */
  datatype Operation = Operation(id: string, mode: string, direction: string, client: string, arrival: int)

  type Table = seq<Operation>

  /**
   * "Guardar Operación" (gestor_operaciones.py:139-148) adds the new row
   * at the end and keeps every existing row; an id already in the table is
   * not rejected and not overwritten.
   */
  function Register(table: Table, op: Operation): (r: Table)
    ensures |r| == |table| + 1
    ensures r[..|table|] == table
    ensures r[|table|] == op
  {
    table + [op]
  }

  /** How many rows carry the id `id`. */
  function CountId(table: Table, id: string): nat {
    if table == [] then 0
    else CountId(table[..|table| - 1], id) + (if table[|table| - 1].id == id then 1 else 0)
  }

  /** Registering an id that is already present adds a second row with it. */
  lemma RegisterKeepsDuplicates(table: Table, op: Operation)
    ensures CountId(Register(table, op), op.id) == CountId(table, op.id) + 1
  {
  }

  /**
   * "Eliminar Seleccionadas" (gestor_operaciones.py:198) keeps
   * exactly the rows whose id is not selected.
   */
  function Delete(table: Table, selected: set<string>): (r: Table)
    ensures |r| <= |table|
    ensures forall op :: op in r <==> op in table && op.id !in selected
  {
    if table == [] then []
    else
      assert table == [table[0]] + table[1..];
      (if table[0].id in selected then [] else [table[0]]) + Delete(table[1..], selected)
  }

  /** Deleting works row by row: the kept rows stay in their original order. */
  lemma {:induction false} DeleteDistributes(t1: Table, t2: Table, selected: set<string>)
    ensures Delete(t1 + t2, selected) == Delete(t1, selected) + Delete(t2, selected)
  {
    if t1 == [] {
      assert t1 + t2 == t2;
    } else {
      assert (t1 + t2)[1..] == t1[1..] + t2;
      DeleteDistributes(t1[1..], t2, selected);
    }
  }

  /** A table none of whose ids is selected is left as it is. */
  lemma {:induction false} DeleteNothingSelected(table: Table, selected: set<string>)
    requires forall op :: op in table ==> op.id !in selected
    ensures Delete(table, selected) == table
  {
    if table != [] {
      assert table[0] in table;
      assert forall op :: op in table[1..] ==> op in table;
      DeleteNothingSelected(table[1..], selected);
    }
  }

  /** Deleting a freshly registered id undoes the registration. */
  lemma RegisterThenDelete(table: Table, op: Operation)
    requires forall o :: o in table ==> o.id != op.id
    ensures Delete(Register(table, op), {op.id}) == table
  {
    DeleteDistributes(table, [op], {op.id});
    DeleteNothingSelected(table, {op.id});
    assert Delete([op], {op.id}) == [];
  }

  /** The certification date, seven days before arrival (gestor_operaciones.py:173). */
  function CertificationDate(arrival: int): (c: int)
    ensures c < arrival
    ensures c + CertificationLeadDays == arrival
  {
    arrival - CertificationLeadDays
  }

  /**
   * One row of the "Ver Operaciones" table before formatting: the stored
   * fields, the certification date, the days left to arrival, and the
   * advised invoicing day with its rate.
   */
  datatype ViewRow = ViewRow(
    id: string, client: string, direction: string, mode: string, arrival: int,
    certification: int, daysToArrival: int, best: Best, bestRate: Rate)

  /**
   * The view row of `op` on day `today`, with the sidebar's two rates as
   * overrides: the stored fields unchanged, the certification seven days
   * before arrival, a countdown that is zero on the arrival day, and an
   * advised day within one day of arrival, or "Sin datos" at 0.0.
   */
  function ViewOf(op: Operation, today: int, lookup: RateLookup, manualToday: Rate, manualTomorrow: Rate): (v: ViewRow)
    ensures v.id == op.id && v.client == op.client && v.direction == op.direction
            && v.mode == op.mode && v.arrival == op.arrival
    ensures v.certification + CertificationLeadDays == op.arrival
    ensures today + v.daysToArrival == op.arrival
    ensures v.best.Day? ==> op.arrival - 1 <= v.best.day <= op.arrival + 1
    ensures v.best == NoData ==> v.bestRate == 0.0
  {
    var advice := Suggest(op.arrival, lookup, Some(manualToday), Some(manualTomorrow));
    ViewRow(op.id, op.client, op.direction, op.mode, op.arrival,
            CertificationDate(op.arrival), op.arrival - today, advice.best, advice.rate)
  }

  /**
   * The loop that fills `datos`: one view row per table row, in table order.
   * Each row's certification date is seven days before its arrival and its
   * countdown reaches zero exactly on the arrival day.
   */
  method BuildView(table: Table, today: int, lookup: RateLookup, manualToday: Rate, manualTomorrow: Rate)
    returns (rows: seq<ViewRow>)
    ensures |rows| == |table|
    ensures forall i :: 0 <= i < |table| ==> rows[i] == ViewOf(table[i], today, lookup, manualToday, manualTomorrow)
    ensures forall i :: 0 <= i < |table| ==>
              && rows[i].id == table[i].id
              && rows[i].certification + CertificationLeadDays == table[i].arrival
              && today + rows[i].daysToArrival == table[i].arrival
  {
    rows := [];
    for i := 0 to |table|
      invariant |rows| == i
      invariant forall j :: 0 <= j < i ==> rows[j] == ViewOf(table[j], today, lookup, manualToday, manualTomorrow)
    {
      var op := table[i];
      var advice := Suggest(op.arrival, lookup, Some(manualToday), Some(manualTomorrow));
      var certification := op.arrival - CertificationLeadDays;
      var daysLeft := op.arrival - today;
      rows := rows + [ViewRow(op.id, op.client, op.direction, op.mode, op.arrival,
                              certification, daysLeft, advice.best, advice.rate)];
    }
  }
}
