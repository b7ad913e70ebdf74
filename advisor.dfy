/**
 * The best-invoicing-day advisor `sugerir_mejor_dia`: compare the rates of
 * the day before arrival, the arrival day and the day after, and pick the
 * day whose rate is highest, the earliest one on a tie.
 */
module Advisor {
  import opened Wrappers
  import opened Rates

  /** One entry of the advisor's `{date: rate}` dictionary, kept in insertion order. */
  datatype Candidate = Candidate(day: int, rate: Option<Rate>)

  /** An entry that survived the `is not None` filter. */
  datatype Quote = Quote(day: int, rate: Rate)

  /** The advised day, or the sentinel "Sin datos". */
  datatype Best = NoData | Day(day: int)

  /** The triple `(mejor_fecha, mejor_trm, trms)` the advisor returns. */
  datatype Suggestion = Suggestion(best: Best, rate: Rate, rates: seq<Candidate>)

  /**
   * The dictionary comprehension at gestor_operaciones.py:95 that drops `None`:
   * exactly the entries with a value, in their original order. A zero or
   * negative rate is kept; only `None` is dropped.
   */
  function ValidQuotes(cs: seq<Candidate>): (r: seq<Quote>)
    ensures |r| <= |cs|
    ensures r == [] <==> forall i :: 0 <= i < |cs| ==> cs[i].rate.None?
  {
    if cs == [] then []
    else
      var init, last := cs[..|cs| - 1], cs[|cs| - 1];
      assert cs == init + [last];
      ValidQuotes(init) + (if last.rate.Some? then [Quote(last.day, last.rate.value)] else [])
  }

  /** The filter keeps every entry that has a value and invents none. */
  lemma {:induction false} ValidQuotesKeepsExactlyTheValues(cs: seq<Candidate>)
    ensures forall q :: q in ValidQuotes(cs) ==> Candidate(q.day, Some(q.rate)) in cs
    ensures forall c :: c in cs && c.rate.Some? ==> Quote(c.day, c.rate.value) in ValidQuotes(cs)
  {
    if cs != [] {
      var init, last := cs[..|cs| - 1], cs[|cs| - 1];
      assert cs == init + [last];
      ValidQuotesKeepsExactlyTheValues(init);
    }
  }

  /**
   * The `max` by rate at gestor_operaciones.py:99: Python's `max` walks the keys
   * in order and replaces its current best only by a strictly greater one, so
   * the result is the position of the FIRST maximal rate.
   */
  function FirstMaxIndex(qs: seq<Quote>): (k: nat)
    requires qs != []
    ensures k < |qs|
    ensures forall j :: 0 <= j < |qs| ==> qs[j].rate <= qs[k].rate
    ensures forall j :: 0 <= j < k ==> qs[j].rate < qs[k].rate
  {
    if |qs| == 1 then 0
    else
      var k := FirstMaxIndex(qs[..|qs| - 1]);
      if qs[|qs| - 1].rate > qs[k].rate then |qs| - 1 else k
  }

  /**
   * Reference definition of the advisor's choice over the candidate table:
   * slot `i` has a rate, no slot has a higher one, and every earlier slot
   * with a rate has a strictly lower one.
   */
  ghost predicate IsFirstBest(cs: seq<Candidate>, i: int) {
    && 0 <= i < |cs|
    && cs[i].rate.Some?
    && (forall j :: 0 <= j < |cs| && cs[j].rate.Some? ==> cs[j].rate.value <= cs[i].rate.value)
    && (forall j :: 0 <= j < i && cs[j].rate.Some? ==> cs[j].rate.value < cs[i].rate.value)
  }

  /** At most one slot is the first best one, so `IsFirstBest` pins the choice down. */
  lemma FirstBestIsUnique(cs: seq<Candidate>, i: int, j: int)
    requires IsFirstBest(cs, i) && IsFirstBest(cs, j)
    ensures i == j
  {
  }

  /** A first best slot stays first best when a slot with no higher rate is appended. */
  lemma FirstBestExtends(cs: seq<Candidate>, c: Candidate, i: int)
    requires IsFirstBest(cs, i)
    requires c.rate.Some? ==> c.rate.value <= cs[i].rate.value
    ensures IsFirstBest(cs + [c], i)
  {
  }

  /** An appended slot whose rate beats every earlier one is the first best slot. */
  lemma NewMaximumIsFirstBest(cs: seq<Candidate>, c: Candidate)
    requires c.rate.Some?
    requires forall j :: 0 <= j < |cs| && cs[j].rate.Some? ==> cs[j].rate.value < c.rate.value
    ensures IsFirstBest(cs + [c], |cs|)
  {
  }

  /**
   * Filtering out `None` and then taking the first maximum finds the first
   * best slot; `i` is that slot.
   */
  lemma {:induction false} FirstBestSlot(cs: seq<Candidate>) returns (i: int)
    requires ValidQuotes(cs) != []
    ensures var qs := ValidQuotes(cs);
            var q := qs[FirstMaxIndex(qs)];
            IsFirstBest(cs, i) && cs[i] == Candidate(q.day, Some(q.rate))
  {
    var n := |cs|;
    var init, last := cs[..n - 1], cs[n - 1];
    assert cs == init + [last];
    var qs, qi := ValidQuotes(cs), ValidQuotes(init);
    if last.rate.None? {
      assert qs == qi;
      i := FirstBestSlot(init);
      FirstBestExtends(init, last, i);
    } else if qi == [] {
      assert qs == [Quote(last.day, last.rate.value)];
      NewMaximumIsFirstBest(init, last);
      i := n - 1;
    } else {
      var k := FirstMaxIndex(qi);
      assert qs == qi + [Quote(last.day, last.rate.value)];
      assert qs[..|qs| - 1] == qi;
      i := FirstBestSlot(init);
      if last.rate.value > qi[k].rate {
        assert FirstMaxIndex(qs) == |qs| - 1;
        NewMaximumIsFirstBest(init, last);
        i := n - 1;
      } else {
        assert FirstMaxIndex(qs) == k;
        FirstBestExtends(init, last, i);
      }
    }
  }

  /**
   * The quote `max` picks comes from the first best slot of the table,
   * stated as an existential because `Suggest`, a function, cannot bind the
   * slot that `FirstBestSlot` returns.
   */
  lemma FilterThenMaxIsFirstBest(cs: seq<Candidate>)
    requires ValidQuotes(cs) != []
    ensures var qs := ValidQuotes(cs);
            var q := qs[FirstMaxIndex(qs)];
            exists i :: IsFirstBest(cs, i) && cs[i] == Candidate(q.day, Some(q.rate))
  {
    var i := FirstBestSlot(cs);
  }

  /**
   * `sugerir_mejor_dia` (gestor_operaciones.py:75-101).
   * The table holds the day before, the arrival day and the day after, in
   * that order; a truthy manual "today" value replaces the arrival-day rate
   * and a truthy manual "tomorrow" value the day-after rate, whatever the
   * real current date is; the day before is never overridden. Without any
   * rate the answer is "Sin datos" with 0.0; otherwise it is the first day of
   * the table whose rate is maximal.
   */
  function Suggest(arrival: int, lookup: RateLookup, manualToday: Option<Rate>, manualTomorrow: Option<Rate>): (r: Suggestion)
    ensures |r.rates| == 3
    ensures r.rates[0].day == arrival - 1 && r.rates[1].day == arrival && r.rates[2].day == arrival + 1
    ensures r.rates[0].rate == lookup(arrival - 1)
    ensures Truthy(manualToday) ==> r.rates[1].rate == manualToday
    ensures !Truthy(manualToday) ==> r.rates[1].rate == lookup(arrival)
    ensures Truthy(manualTomorrow) ==> r.rates[2].rate == manualTomorrow
    ensures !Truthy(manualTomorrow) ==> r.rates[2].rate == lookup(arrival + 1)
    ensures r.best == NoData <==> forall i :: 0 <= i < 3 ==> r.rates[i].rate.None?
    ensures r.best == NoData ==> r.rate == 0.0
    ensures r.best.Day? ==> && arrival - 1 <= r.best.day <= arrival + 1
                            && IsFirstBest(r.rates, r.best.day - arrival + 1)
                            && r.rates[r.best.day - arrival + 1].rate == Some(r.rate)
  {
    var rates := [Candidate(arrival - 1, lookup(arrival - 1)),
                  Candidate(arrival, Override(lookup(arrival), manualToday)),
                  Candidate(arrival + 1, Override(lookup(arrival + 1), manualTomorrow))];
    var valid := ValidQuotes(rates);
    if valid == [] then
      Suggestion(NoData, 0.0, rates)
    else
      var q := valid[FirstMaxIndex(valid)];
      FilterThenMaxIsFirstBest(rates);
      Suggestion(Day(q.day), q.rate, rates)
  }

  /** The rates 100, 150 and 120 around arrival advise the arrival day at 150. */
  lemma ArrivalDayWinsExample(arrival: int, lookup: RateLookup)
    requires lookup(arrival - 1) == Some(100.0)
    requires lookup(arrival) == Some(150.0)
    requires lookup(arrival + 1) == Some(120.0)
    ensures Suggest(arrival, lookup, None, None).best == Day(arrival)
    ensures Suggest(arrival, lookup, None, None).rate == 150.0
  {
  }

  /** A manual 200 for the arrival day beats the looked-up 150 and is advised. */
  lemma ManualOverrideWinsExample(arrival: int, lookup: RateLookup)
    requires lookup(arrival - 1) == Some(100.0)
    requires lookup(arrival) == Some(150.0)
    requires lookup(arrival + 1) == Some(120.0)
    ensures Suggest(arrival, lookup, Some(200.0), None).best == Day(arrival)
    ensures Suggest(arrival, lookup, Some(200.0), None).rate == 200.0
  {
  }

  /**
   * Three equal rates advise the day before arrival: ties go to the first
   * key of the dictionary.
   */
  lemma TieGoesToDayBefore(arrival: int, lookup: RateLookup, v: Rate)
    requires lookup(arrival - 1) == Some(v)
    requires lookup(arrival) == Some(v)
    requires lookup(arrival + 1) == Some(v)
    ensures Suggest(arrival, lookup, None, None).best == Day(arrival - 1)
  {
  }

  /**
   * A falsy override (`None` or zero) changes nothing: the advice is the one
   * computed from the looked-up rates alone.
   */
  lemma FalsyOverridesAreIgnored(arrival: int, lookup: RateLookup, manualToday: Option<Rate>, manualTomorrow: Option<Rate>)
    requires !Truthy(manualToday) && !Truthy(manualTomorrow)
    ensures Suggest(arrival, lookup, manualToday, manualTomorrow) == Suggest(arrival, lookup, None, None)
  {
  }

  /**
   * Rates of zero or below are still eligible: as soon as one slot has any
   * value at all, a day is advised.
   */
  lemma NonPositiveRatesAreEligible(arrival: int, lookup: RateLookup, v: Rate)
    requires v <= 0.0
    requires lookup(arrival - 1) == Some(v)
    requires lookup(arrival).None? && lookup(arrival + 1).None?
    ensures Suggest(arrival, lookup, None, None).best == Day(arrival - 1)
    ensures Suggest(arrival, lookup, None, None).rate == v
  {
  }
}
