/** The sidebar's rate trend between today's and tomorrow's TRM. */
module Sidebar {
  import opened Wrappers
  import opened Rates
  import opened Advisor

  /** The three labels "Sube", "Baja" and "Igual". */
  datatype Trend = Rising | Falling | Flat

  /**
   * The trend of gestor_operaciones.py:42-48, from tomorrow's rate minus
   * today's: rising when the difference is positive, falling when it is
   * negative, flat otherwise.
   */
  function TrendOf(today: Rate, tomorrow: Rate): (t: Trend)
    ensures t == Rising <==> tomorrow - today > 0.0
    ensures t == Falling <==> tomorrow - today < 0.0
    ensures t == Flat <==> tomorrow == today
  {
    var diff := tomorrow - today;
    if diff > 0.0 then Rising
    else if diff < 0.0 then Falling
    else Flat
  }

  /** Swapping the two rates swaps rising and falling. */
  lemma TrendIsAntisymmetric(today: Rate, tomorrow: Rate)
    ensures TrendOf(today, tomorrow) == Rising <==> TrendOf(tomorrow, today) == Falling
    ensures TrendOf(today, tomorrow) == Flat <==> TrendOf(tomorrow, today) == Flat
  {
  }

  /**
   * The trend and the advisor agree: when both sidebar rates are nonzero,
   * no rate is published for the day before arrival, and the advisor is
   * given the sidebar rates as overrides, it advises the day after arrival
   * exactly when the trend is rising, and the arrival day otherwise (a flat
   * trend is a tie, which goes to the earlier day).
   */
  lemma TrendPredictsAdvice(arrival: int, lookup: RateLookup, today: Rate, tomorrow: Rate)
    requires today != 0.0 && tomorrow != 0.0
    requires lookup(arrival - 1).None?
    ensures Suggest(arrival, lookup, Some(today), Some(tomorrow)).best
            == Day(if TrendOf(today, tomorrow) == Rising then arrival + 1 else arrival)
  {
  }
}
