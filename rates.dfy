/** The optional-value type used wherever the source may produce `None`. */
module Wrappers {
  datatype Option<+T> = None | Some(value: T)
}

/**
 * Exchange rates (TRM) as the decision logic sees them. The logic only
 * compares rates with one another, subtracts them (the sidebar trend) and
 * tests them for truthiness, so a rate
 * is modelled as a `real` and a date as an integer day number.
 */
module Rates {
  import opened Wrappers

  /** One TRM value (a float in the source). */
  type Rate = real

  /**
   * The official-rate lookup `obtener_trm_oficial`: for a day number, the
   * published rate, or `None` when the service has no value for that day.
   */
  type RateLookup = int -> Option<Rate>

  /** Python truthiness of an optional rate: neither `None` nor zero. */
  predicate Truthy(m: Option<Rate>)
    ensures Truthy(m) <==> m != None && m != Some(0.0)
  {
    m.Some? && m.value != 0.0
  }

  /**
   * A manual value replaces the looked-up one only when it is truthy
   * (gestor_operaciones.py:84-87); a falsy one never erases a looked-up rate.
   */
  function Override(looked: Option<Rate>, manual: Option<Rate>): (r: Option<Rate>)
    ensures Truthy(manual) ==> r == manual
    ensures !Truthy(manual) ==> r == looked
    ensures looked.Some? ==> r.Some?
  {
    if Truthy(manual) then manual else looked
  }
}
