/** The two ledgers' entries and the rules by which a new entry is validated
    and derived (`addMeterReading`, `addRecharge`). */
module Ledger {
  import opened Wrappers
  import opened Calendar
  import opened Tariff
  import opened Ordering

  /** A meter reading: its date, the cumulative meter value, the consumption
      derived when it was added and the cost of that consumption at the
      tariffs then in force. */
  datatype Reading = Reading(date: Date, reading: real, consumption: real, cost: real)

  /** A recharge: its date, the amount paid, the units credited and the
      resulting price per unit. */
  datatype Recharge = Recharge(date: Date, amount: real, units: real, rate: real)

  /** Why an entry was refused. */
  datatype InputError =
    | InvalidFields   // a field empty, not a number, zero or negative
    | BelowPrevious   // a meter value below that of the last stored reading

  datatype Result<T> = Ok(value: T) | Err(error: InputError)

  function ReadingKey(r: Reading): int { DayNumber(r.date) }
  function RechargeKey(r: Recharge): int { DayNumber(r.date) }

  /** The entry `addMeterReading` would store for the date and meter value typed
      in, or why it refuses them. The consumption is measured against the last
      entry of the ledger as stored, whatever its date. */
  function NewReading(readings: seq<Reading>, settings: Settings, date: Option<Date>, value: Option<real>)
    : (r: Result<Reading>)
    ensures (date.None? || value.None? || value.value <= 0.0) <==> r == Err(InvalidFields)
    ensures r == Err(BelowPrevious) <==>
              date.Some? && value.Some? && value.value > 0.0
              && readings != [] && value.value < readings[|readings| - 1].reading
    ensures r.Ok? ==> r.value.date == date.value && r.value.reading == value.value
    ensures r.Ok? ==> r.value.consumption >= 0.0
    ensures r.Ok? && readings == [] ==> r.value.consumption == 0.0
    ensures r.Ok? && readings != [] ==>
              r.value.reading == readings[|readings| - 1].reading + r.value.consumption
    ensures r.Ok? ==> r.value.cost == CalculateCost(settings, r.value.consumption)
  {
    if date.None? || value.None? || value.value <= 0.0 then Err(InvalidFields)
    else
      var consumption := if readings == [] then 0.0 else value.value - readings[|readings| - 1].reading;
      if consumption < 0.0 then Err(BelowPrevious)
      else Ok(Reading(date.value, value.value, consumption, CalculateCost(settings, consumption)))
  }

  /** The entry `addRecharge` would store, or why it refuses the input. */
  function NewRecharge(date: Option<Date>, amount: Option<real>, units: Option<real>): (r: Result<Recharge>)
    ensures r.Ok? <==> date.Some? && amount.Some? && units.Some? && amount.value > 0.0 && units.value > 0.0
    ensures r.Err? ==> r.error == InvalidFields
    ensures r.Ok? ==> r.value == Recharge(date.value, amount.value, units.value, r.value.rate)
    ensures r.Ok? ==> r.value.rate > 0.0 && r.value.rate * r.value.units == r.value.amount
  {
    if date.None? || amount.None? || units.None? || amount.value <= 0.0 || units.value <= 0.0 then
      Err(InvalidFields)
    else
      Ok(Recharge(date.value, amount.value, units.value, amount.value / units.value))
  }

  /** What every entry added through the form satisfies. */
  predicate ReadingOk(r: Reading)
  {
    r.reading > 0.0 && r.consumption >= 0.0
  }

  predicate RechargeOk(r: Recharge)
  {
    r.amount > 0.0 && r.units > 0.0 && r.rate > 0.0 && r.rate * r.units == r.amount
  }

  /** The reading ledger as adding and deleting leave it: sorted by date, every
      meter value positive, every consumption non-negative. */
  predicate ReadingsWellFormed(s: seq<Reading>)
  {
    SortedBy(s, ReadingKey) && forall i :: 0 <= i < |s| ==> ReadingOk(s[i])
  }

  predicate RechargesWellFormed(s: seq<Recharge>)
  {
    SortedBy(s, RechargeKey) && forall i :: 0 <= i < |s| ==> RechargeOk(s[i])
  }

  /** A new entry is valid: accepted input yields a well-formed entry. */
  lemma NewReadingOk(readings: seq<Reading>, settings: Settings, date: Option<Date>, value: Option<real>)
    requires NewReading(readings, settings, date, value).Ok?
    ensures ReadingOk(NewReading(readings, settings, date, value).value)
  {
  }

  lemma NewRechargeOk(date: Option<Date>, amount: Option<real>, units: Option<real>)
    requires NewRecharge(date, amount, units).Ok?
    ensures RechargeOk(NewRecharge(date, amount, units).value)
  {
  }

  /** Pushing a valid reading and sorting yields a well-formed ledger from a
      ledger whose entries were valid, in whatever order they were. */
  lemma AddReadingWellFormed(s: seq<Reading>, e: Reading)
    requires forall i :: 0 <= i < |s| ==> ReadingOk(s[i])
    requires ReadingOk(e)
    ensures ReadingsWellFormed(SortBy(s + [e], ReadingKey))
  {
    AppendKeeps(s, e, ReadingOk);
    SortBySorted(s + [e], ReadingKey);
    SortByKeeps(s + [e], ReadingKey, ReadingOk);
  }

  lemma AddRechargeWellFormed(s: seq<Recharge>, e: Recharge)
    requires forall i :: 0 <= i < |s| ==> RechargeOk(s[i])
    requires RechargeOk(e)
    ensures RechargesWellFormed(SortBy(s + [e], RechargeKey))
  {
    AppendKeeps(s, e, RechargeOk);
    SortBySorted(s + [e], RechargeKey);
    SortByKeeps(s + [e], RechargeKey, RechargeOk);
  }

  /** Deleting an entry keeps the ledger well-formed. */
  lemma DeleteReadingWellFormed(s: seq<Reading>, index: int)
    requires ReadingsWellFormed(s)
    ensures ReadingsWellFormed(SpliceOne(s, index))
  {
    SpliceOneSorted(s, index, ReadingKey);
    var k := SpliceStart(|s|, index);
    if k < |s| {
      SpliceOneAt(s, k);
    }
  }

  /** The delta chain: the first entry records no consumption and every other
      the rise of the meter since the entry before it. */
  predicate Chained(s: seq<Reading>)
  {
    (s != [] ==> s[0].consumption == 0.0)
    && forall i :: 0 < i < |s| ==> s[i].consumption == s[i].reading - s[i - 1].reading
  }

  /** When every reading is entered in date order, each one lands at the end of
      the ledger and the delta chain is kept. */
  lemma ChronologicalAddChained(s: seq<Reading>, e: Reading, settings: Settings, date: Option<Date>, value: Option<real>)
    requires SortedBy(s, ReadingKey) && Chained(s)
    requires NewReading(s, settings, date, value) == Ok(e)
    requires s != [] ==> ReadingKey(s[|s| - 1]) <= ReadingKey(e)
    ensures SortBy(s + [e], ReadingKey) == s + [e]
    ensures Chained(s + [e])
  {
    SortByAppend(s, e, ReadingKey);
    var t := s + [e];
    assert e.consumption == (if s == [] then 0.0 else e.reading - s[|s| - 1].reading);
    forall i | 0 < i < |t| ensures t[i].consumption == t[i].reading - t[i - 1].reading {
      if i < |s| {
        assert t[i] == s[i] && t[i - 1] == s[i - 1];
      } else {
        assert t[i] == e && t[i - 1] == s[|s| - 1];
      }
    }
  }

  /** The two quantities the dashboards add up. */
  datatype Measure = Consumption | Cost

  function Value(r: Reading, m: Measure): real
  {
    match m
    case Consumption => r.consumption
    case Cost => r.cost
  }

  /** `s.reduce((sum, r) => sum + r.consumption, 0)` and its twin for the cost:
      the sum taken front to back. */
  function Sum(s: seq<Reading>, m: Measure): real
  {
    if s == [] then 0.0 else Sum(s[..|s| - 1], m) + Value(s[|s| - 1], m)
  }

  /** Along a delta chain the consumptions add up to the rise of the meter from
      the first entry to the last. */
  lemma {:induction false} ChainedTelescopes(s: seq<Reading>)
    requires s != [] && Chained(s)
    ensures Sum(s, Consumption) == s[|s| - 1].reading - s[0].reading
    decreases |s|
  {
    if |s| > 1 {
      var init := s[..|s| - 1];
      assert Chained(init);
      ChainedTelescopes(init);
    }
  }

  /** A back-dated reading is compared with the latest-dated entry, not with the
      one it follows: 140 kWh on 5 January after 100 kWh on 1 January and 130 kWh
      on 10 January is accepted with a consumption of 10, lands between the two,
      and leaves the meter values out of date order and the chain broken. */
  lemma BackdatedReadingBreaksChain()
    ensures var s := [Reading(Date(2024, 1, 1), 100.0, 0.0, 0.0), Reading(Date(2024, 1, 10), 130.0, 30.0, 0.0)];
            var r := NewReading(s, DefaultSettings, Some(Date(2024, 1, 5)), Some(140.0));
            && r.Ok? && r.value.consumption == 10.0
            && SortBy(s + [r.value], ReadingKey) == [s[0], r.value, s[1]]
            && Chained(s)
            && !Chained(SortBy(s + [r.value], ReadingKey))
  {
    var a := Reading(Date(2024, 1, 1), 100.0, 0.0, 0.0);
    var b := Reading(Date(2024, 1, 10), 130.0, 30.0, 0.0);
    var e := Reading(Date(2024, 1, 5), 140.0, 10.0, CalculateCost(DefaultSettings, 10.0));
    assert NewReading([a, b], DefaultSettings, Some(Date(2024, 1, 5)), Some(140.0)) == Ok(e);
    BackdatedPlacement([a, b] + [e], a, e, b);
    var t := [a, e, b];
    assert t[2].consumption != t[2].reading - t[1].reading;
  }

  /** Entries of 1, 5 and 10 January come out in date order, whatever order
      they were pushed in. */
  lemma BackdatedPlacement(s: seq<Reading>, a: Reading, e: Reading, b: Reading)
    requires a.date == Date(2024, 1, 1) && e.date == Date(2024, 1, 5) && b.date == Date(2024, 1, 10)
    requires multiset(s) == multiset{a, e, b}
    ensures SortBy(s, ReadingKey) == [a, e, b]
  {
    January2024();
    SortThree(s, a, e, b, ReadingKey);
  }

  /** Deleting a reading does not recompute its successor: removing the middle
      one of three chained readings leaves the third with its old consumption. */
  lemma DeleteBreaksChain()
    ensures var s := [Reading(Date(2024, 1, 1), 100.0, 0.0, 0.0),
                      Reading(Date(2024, 1, 2), 110.0, 10.0, 0.0),
                      Reading(Date(2024, 1, 3), 125.0, 15.0, 0.0)];
            Chained(s) && SpliceOne(s, 1) == [s[0], s[2]] && !Chained(SpliceOne(s, 1))
  {
    var s := [Reading(Date(2024, 1, 1), 100.0, 0.0, 0.0),
              Reading(Date(2024, 1, 2), 110.0, 10.0, 0.0),
              Reading(Date(2024, 1, 3), 125.0, 15.0, 0.0)];
    assert SpliceOne(s, 1) == [s[0], s[2]];
    var t := [s[0], s[2]];
    assert t[1].consumption != t[1].reading - t[0].reading;
  }
  /** Every stored cost is that of its consumption under the given tariffs. */
  predicate CostsCurrent(s: seq<Reading>, settings: Settings)
  {
    forall i :: 0 <= i < |s| ==> s[i].cost == CalculateCost(settings, s[i].consumption)
  }

  /** A reading priced under the tariffs in force keeps the costs current. */
  lemma AddReadingCostsCurrent(s: seq<Reading>, e: Reading, settings: Settings)
    requires CostsCurrent(s, settings)
    requires e.cost == CalculateCost(settings, e.consumption)
    ensures CostsCurrent(SortBy(s + [e], ReadingKey), settings)
  {
    var current := (r: Reading) => r.cost == CalculateCost(settings, r.consumption);
    AppendKeeps(s, e, current);
    SortByKeeps(s + [e], ReadingKey, current);
  }

  /** Costs are not recomputed when the tariffs change: raising the first tier
      to 100 leaves a cost worked out at the default tariff in place, and it is
      no longer the cost of its consumption. */
  lemma TariffChangeLeavesCostsStale()
    ensures var s := [Reading(Date(2024, 1, 2), 110.0, 10.0, CalculateCost(DefaultSettings, 10.0))];
            CostsCurrent(s, DefaultSettings) && !CostsCurrent(s, Settings(100.0, 136.49, 18.0))
  {
    var s := [Reading(Date(2024, 1, 2), 110.0, 10.0, CalculateCost(DefaultSettings, 10.0))];
    assert CalculateCost(DefaultSettings, 10.0) == 10.0 * 91.17 * 1.18;
    assert CalculateCost(Settings(100.0, 136.49, 18.0), 10.0) == 10.0 * 100.0 * 1.18;
    assert s[0].cost != CalculateCost(Settings(100.0, 136.49, 18.0), s[0].consumption);
  }
}
