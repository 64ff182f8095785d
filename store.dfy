/** The application's state: the two ledgers and the tariff settings, which
    the page's handlers replace or update in place. */
module Store {
  import opened Wrappers
  import opened Calendar
  import opened Tariff
  import opened Ordering
  import opened Ledger

  /** The state as a value. */
  datatype Contents = Contents(meterReadings: seq<Reading>, recharges: seq<Recharge>, settings: Settings)

  /** The three keys of an exported or imported file. A key holding an array or
      object is `Some`. A key that is absent or holds a falsy value (`null`,
      `false`, `0`, `""`) is `None`, since `importData` tests truthiness. */
  datatype Snapshot = Snapshot(meterReadings: Option<seq<Reading>>, recharges: Option<seq<Recharge>>,
                               settings: Option<Settings>)

  /** What `exportData` writes out (its timestamp aside). */
  function Export(c: Contents): (snap: Snapshot)
    ensures snap.meterReadings.Some? && snap.recharges.Some? && snap.settings.Some?
  {
    Snapshot(Some(c.meterReadings), Some(c.recharges), Some(c.settings))
  }

  /** The outcome of importing a file: each key the file carries replaces the
      current value, each key it lacks leaves it. */
  function Merge(c: Contents, snap: Snapshot): (r: Contents)
    ensures snap.meterReadings.None? ==> r.meterReadings == c.meterReadings
    ensures snap.recharges.None? ==> r.recharges == c.recharges
    ensures snap.settings.None? ==> r.settings == c.settings
    ensures snap.meterReadings.Some? ==> r.meterReadings == snap.meterReadings.value
    ensures snap.recharges.Some? ==> r.recharges == snap.recharges.value
    ensures snap.settings.Some? ==> r.settings == snap.settings.value
  {
    Contents(if snap.meterReadings.Some? then snap.meterReadings.value else c.meterReadings,
             if snap.recharges.Some? then snap.recharges.value else c.recharges,
             if snap.settings.Some? then snap.settings.value else c.settings)
  }

  /** Importing an exported file restores the exported state, whatever the
      state was before. */
  lemma ImportOfExport(current: Contents, exported: Contents)
    ensures Merge(current, Export(exported)) == exported
  {
  }

  /** Importing the same file twice is importing it once. */
  lemma ImportIdempotent(c: Contents, snap: Snapshot)
    ensures Merge(Merge(c, snap), snap) == Merge(c, snap)
  {
  }

  /** The answer to an attempt to add an entry. */
  datatype Status = Accepted | Rejected(error: InputError)

  class DataStore {
    var meterReadings: seq<Reading>
    var recharges: seq<Recharge>
    var settings: Settings

    function View(): Contents
      reads this
    {
      Contents(meterReadings, recharges, settings)
    }

    /** The state as the form handlers leave it (an import may install any
        ledgers, sorted or not). */
    ghost predicate WellFormed()
      reads this
    {
      ReadingsWellFormed(meterReadings) && RechargesWellFormed(recharges)
    }

    /** The initial state: empty ledgers, the default tariffs. */
    constructor ()
      ensures meterReadings == [] && recharges == [] && settings == DefaultSettings
      ensures WellFormed()
    {
      meterReadings := [];
      recharges := [];
      settings := DefaultSettings;
    }

    /** `addMeterReading`: validate, derive the entry, push it and sort the
        ledger by date. A refused input changes nothing. */
    method AddMeterReading(date: Option<Date>, value: Option<real>) returns (status: Status)
      modifies this
      ensures recharges == old(recharges) && settings == old(settings)
      ensures var r := NewReading(old(meterReadings), old(settings), date, value);
              && (r.Err? ==> status == Rejected(r.error) && meterReadings == old(meterReadings))
              && (r.Ok? ==> status == Accepted && meterReadings == SortBy(old(meterReadings) + [r.value], ReadingKey))
      ensures status.Accepted? ==>
                |meterReadings| == |old(meterReadings)| + 1 && SortedBy(meterReadings, ReadingKey)
      ensures status.Accepted? && SortedBy(old(meterReadings), ReadingKey) ==>
                var k := CountAtMost(old(meterReadings), DayNumber(date.value), ReadingKey);
                var entry := NewReading(old(meterReadings), old(settings), date, value).value;
                meterReadings == old(meterReadings)[..k] + [entry] + old(meterReadings)[k..]
      ensures old(WellFormed()) ==> WellFormed()
      ensures old(CostsCurrent(meterReadings, settings)) ==> CostsCurrent(meterReadings, settings)
    {
      var r := NewReading(meterReadings, settings, date, value);
      if r.Err? {
        status := Rejected(r.error);
        return;
      }
      var before := meterReadings;
      meterReadings := meterReadings + [r.value];
      meterReadings := SortBy(meterReadings, ReadingKey);
      status := Accepted;
      PushThenSort(before, r.value, ReadingKey);
      if ReadingsWellFormed(before) {
        NewReadingOk(before, settings, date, value);
        AddReadingWellFormed(before, r.value);
      }
      if CostsCurrent(before, settings) {
        AddReadingCostsCurrent(before, r.value, settings);
      }
    }

    /** `addRecharge`: validate, push with its rate and sort by date. A refused
        input changes nothing. */
    method AddRecharge(date: Option<Date>, amount: Option<real>, units: Option<real>) returns (status: Status)
      modifies this
      ensures meterReadings == old(meterReadings) && settings == old(settings)
      ensures var r := NewRecharge(date, amount, units);
              && (r.Err? ==> status == Rejected(r.error) && recharges == old(recharges))
              && (r.Ok? ==> status == Accepted && recharges == SortBy(old(recharges) + [r.value], RechargeKey))
      ensures status.Accepted? ==>
                |recharges| == |old(recharges)| + 1 && SortedBy(recharges, RechargeKey)
      ensures status.Accepted? && SortedBy(old(recharges), RechargeKey) ==>
                var k := CountAtMost(old(recharges), DayNumber(date.value), RechargeKey);
                var entry := NewRecharge(date, amount, units).value;
                recharges == old(recharges)[..k] + [entry] + old(recharges)[k..]
      ensures old(WellFormed()) ==> WellFormed()
    {
      var r := NewRecharge(date, amount, units);
      if r.Err? {
        status := Rejected(r.error);
        return;
      }
      var before := recharges;
      recharges := recharges + [r.value];
      recharges := SortBy(recharges, RechargeKey);
      status := Accepted;
      PushThenSort(before, r.value, RechargeKey);
      if RechargesWellFormed(before) {
        NewRechargeOk(date, amount, units);
        AddRechargeWellFormed(before, r.value);
      }
    }

    /** `saveTariffs`: overwrite the three settings. Stored costs stay as they
        were computed. */
    method SaveTariffs(tariff1: real, tariff2: real, tva: real)
      modifies this
      ensures settings == Settings(tariff1, tariff2, tva)
      ensures meterReadings == old(meterReadings) && recharges == old(recharges)
      ensures old(WellFormed()) ==> WellFormed()
    {
      settings := settings.(tariff1 := tariff1);
      settings := settings.(tariff2 := tariff2);
      settings := settings.(tva := tva);
    }

    /** `deleteReading` once confirmed: `splice(index, 1)`, with no entry
        recomputed. */
    method DeleteReading(index: int)
      modifies this
      ensures meterReadings == SpliceOne(old(meterReadings), index)
      ensures recharges == old(recharges) && settings == old(settings)
      ensures 0 <= index < |old(meterReadings)| ==>
                |meterReadings| == |old(meterReadings)| - 1
                && (forall j :: 0 <= j < index ==> meterReadings[j] == old(meterReadings)[j])
                && (forall j :: index <= j < |meterReadings| ==> meterReadings[j] == old(meterReadings)[j + 1])
      ensures old(WellFormed()) ==> WellFormed()
      ensures old(CostsCurrent(meterReadings, settings)) ==> CostsCurrent(meterReadings, settings)
    {
      var before := meterReadings;
      meterReadings := SpliceOne(meterReadings, index);
      if ReadingsWellFormed(before) {
        DeleteReadingWellFormed(before, index);
      }
      var k := SpliceStart(|before|, index);
      if k < |before| {
        SpliceOneAt(before, k);
      }
    }

    /** `resetData` once confirmed: both ledgers emptied, the tariffs kept. */
    method ResetData()
      modifies this
      ensures meterReadings == [] && recharges == []
      ensures settings == old(settings)
      ensures WellFormed()
    {
      meterReadings := [];
      recharges := [];
    }

    /** `exportData`'s payload: the three values as they stand. */
    method ExportData() returns (snap: Snapshot)
      ensures snap == Export(View())
    {
      snap := Export(View());
    }

    /** `importData`: `None` for a file that does not parse, which changes
        nothing; otherwise each key present replaces the current value. */
    method ImportData(data: Option<Snapshot>)
      modifies this
      ensures data.None? ==> View() == old(View())
      ensures data.Some? ==> View() == Merge(old(View()), data.value)
    {
      if data.Some? {
        var snap := data.value;
        if snap.meterReadings.Some? { meterReadings := snap.meterReadings.value; }
        if snap.recharges.Some? { recharges := snap.recharges.value; }
        if snap.settings.Some? { settings := snap.settings.value; }
      }
    }
  }

  /** Two readings on consecutive days: the first costs nothing, the second is
      charged for its 30 kWh at the first tier, and a third below the last
      meter value is refused. */
  method TwoReadingsScenario()
  {
    var store := new DataStore();
    var d1, d2 := Date(2024, 3, 1), Date(2024, 3, 2);
    var first := Reading(d1, 100.0, 0.0, 0.0);
    var second := Reading(d2, 130.0, 30.0, CalculateCost(DefaultSettings, 30.0));
    assert NewReading([], DefaultSettings, Some(d1), Some(100.0)) == Ok(first);
    var s := store.AddMeterReading(Some(d1), Some(100.0));
    assert s == Accepted && store.meterReadings == [first] by {
      assert SortBy([first], ReadingKey) == InsertBy([], first, ReadingKey);
    }
    assert NewReading([first], DefaultSettings, Some(d2), Some(130.0)) == Ok(second);
    s := store.AddMeterReading(Some(d2), Some(130.0));
    assert s == Accepted && store.meterReadings == [first, second] by {
      assert ReadingKey(first) < ReadingKey(second);
      SortByAppend([first], second, ReadingKey);
    }
    DefaultTariffExamples();
    assert second.cost == 30.0 * 91.17 * 1.18;
    assert NewReading([first, second], DefaultSettings, Some(d2), Some(120.0)) == Err(BelowPrevious);
    s := store.AddMeterReading(Some(d2), Some(120.0));
    assert s == Rejected(BelowPrevious);
  }

  /** A recharge of 5000 for 50 units is stored at 100 per unit; one without
      units is refused and leaves the ledger as it was. */
  method RechargeScenario()
  {
    var store := new DataStore();
    var d1 := Date(2024, 3, 1);
    var s := store.AddRecharge(Some(d1), Some(5000.0), Some(50.0));
    assert s == Accepted;
    assert store.recharges == [Recharge(d1, 5000.0, 50.0, 100.0)];
    assert NewRecharge(Some(d1), Some(5000.0), None) == Err(InvalidFields);
    s := store.AddRecharge(Some(d1), Some(5000.0), None);
    assert s == Rejected(InvalidFields);
    assert store.recharges == [Recharge(d1, 5000.0, 50.0, 100.0)];
  }
}
