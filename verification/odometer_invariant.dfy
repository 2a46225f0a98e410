/** The odometer across the screens and the services: the screens accept a
    fuel entry or an oil change only above the car's current reading, and
    the services then set that reading, so every accepted submission
    advances it. The services themselves enforce nothing. */
module OdometerInvariant {
  import opened Wrappers
  import opened Records
  import opened Forms
  import opened FuelService
  import FuelScreen
  import MaintenanceScreen
  import MaintenanceService

  /** No stored fuel entry of a known car lies above that car's current
      reading. */
  ghost predicate ReadingsCovered(s: Store) {
    forall e :: e in s.entries && e.carId in s.cars ==> e.odometerKm <= s.cars[e.carId].currentOdometerKm
  }

  /** A fuel entry accepted by the screen for a car it shows as the store
      has it strictly advances that car's reading when the insert succeeds. */
  lemma FuelSubmissionAdvancesOdometer(s: Store, form: FuelScreen.FuelForm, carId: string, p: Parsers,
                                       lookupOk: bool, id: string, createdAt: string)
    requires carId in s.cars
    ensures var r := FuelScreen.HandleSubmit(s, form, carId, Some(s.cars[carId]), p, lookupOk, id, createdAt, true);
            r.Submitted? ==>
              carId in r.result.store.cars
              && r.result.store.cars[carId].currentOdometerKm > s.cars[carId].currentOdometerKm
  {
    var r := FuelScreen.HandleSubmit(s, form, carId, Some(s.cars[carId]), p, lookupOk, id, createdAt, true);
    if r.Submitted? {
      assert FuelScreen.AcceptableFuelForm(form, Some(s.cars[carId]), p);
      var input := FuelScreen.EntryInputFromForm(form, carId, p);
      assert input.odometerKm > s.cars[carId].currentOdometerKm;
    }
  }

  /** An oil change accepted by the screen strictly advances the car's
      reading. */
  lemma OilChangeAdvancesOdometer(s: Store, carId: string, form: MaintenanceScreen.OilChangeForm, p: Parsers)
    requires carId in s.cars && CarsKeyedById(s)
    ensures var r := MaintenanceScreen.HandleSubmit(s, Some(s.cars[carId]), form, p, true);
            r.Submitted? ==>
              r.recorded
              && carId in r.store.cars
              && r.store.cars[carId].currentOdometerKm > s.cars[carId].currentOdometerKm
  {
  }

  /** Accepted fuel submissions keep every stored reading at or below its
      car's current reading, and the new entry lies strictly above all
      earlier entries of its car. */
  lemma FuelSubmissionKeepsReadingsCovered(s: Store, form: FuelScreen.FuelForm, carId: string, p: Parsers,
                                           lookupOk: bool, id: string, createdAt: string, inserted: bool)
    requires carId in s.cars && ReadingsCovered(s)
    ensures var r := FuelScreen.HandleSubmit(s, form, carId, Some(s.cars[carId]), p, lookupOk, id, createdAt, inserted);
            r.Submitted? ==>
              ReadingsCovered(r.result.store)
              && (r.result.data.Some? ==>
                    forall e :: e in s.entries && e.carId == carId ==> e.odometerKm < r.result.data.value.odometerKm)
  {
    var r := FuelScreen.HandleSubmit(s, form, carId, Some(s.cars[carId]), p, lookupOk, id, createdAt, inserted);
    if r.Submitted? && inserted {
      var input := FuelScreen.EntryInputFromForm(form, carId, p);
      var s' := r.result.store;
      assert input.odometerKm > s.cars[carId].currentOdometerKm;
      forall e | e in s'.entries && e.carId in s'.cars
        ensures e.odometerKm <= s'.cars[e.carId].currentOdometerKm
      {
        if e in s.entries {
          if e.carId == carId {
            assert e.odometerKm <= s.cars[carId].currentOdometerKm;
          }
        } else {
          assert e == r.result.data.value;
        }
      }
    }
  }

  /** Accepted oil changes keep the readings covered. */
  lemma OilChangeKeepsReadingsCovered(s: Store, carId: string, form: MaintenanceScreen.OilChangeForm, p: Parsers,
                                      updated: bool)
    requires carId in s.cars && CarsKeyedById(s) && ReadingsCovered(s)
    ensures var r := MaintenanceScreen.HandleSubmit(s, Some(s.cars[carId]), form, p, updated);
            r.Submitted? ==> ReadingsCovered(r.store)
  {
    var r := MaintenanceScreen.HandleSubmit(s, Some(s.cars[carId]), form, p, updated);
    if r.Submitted? && r.recorded {
      forall e | e in r.store.entries && e.carId in r.store.cars
        ensures e.odometerKm <= r.store.cars[e.carId].currentOdometerKm
      {
        assert e in s.entries;
      }
    }
  }

  /** Deleting entries keeps the readings covered. */
  lemma DeleteKeepsReadingsCovered(s: Store, id: string, deleted: bool)
    requires ReadingsCovered(s)
    ensures ReadingsCovered(DeleteEntry(s, id, deleted))
  {
  }

  /** An update that touches neither the reading nor the car of an entry
      keeps the readings covered. */
  lemma UpdateKeepsReadingsCovered(s: Store, id: string, p: EntryPatch, updated: bool)
    requires ReadingsCovered(s) && p.odometerKm.None? && p.carId.None?
    ensures ReadingsCovered(UpdateEntry(s, id, p, updated).store)
  {
    var s' := UpdateEntry(s, id, p, updated).store;
    forall e | e in s'.entries && e.carId in s'.cars
      ensures e.odometerKm <= s'.cars[e.carId].currentOdometerKm
    {
      var i :| 0 <= i < |s'.entries| && s'.entries[i] == e;
      assert s.entries[i] in s.entries;
    }
  }

  /** Nothing checks a patch that raises an entry's reading above its car's:
      `updateEntry` can break the coverage. */
  lemma UpdateCanUncoverReading(s: Store, id: string, p: EntryPatch, e: FuelEntry)
    requires e in s.entries && e.id == id && e.carId in s.cars
    requires p.carId.None? && p.odometerKm.Some? && p.odometerKm.value > s.cars[e.carId].currentOdometerKm
    ensures !ReadingsCovered(UpdateEntry(s, id, p, true).store)
  {
    var s' := UpdateEntry(s, id, p, true).store;
    var i :| 0 <= i < |s.entries| && s.entries[i] == e;
    assert s'.entries[i] in s'.entries;
  }

  /** Without the screen's check, `addEntry` moves the reading to whatever
      the entry says, backwards included. */
  lemma AddEntryCanLowerOdometer(s: Store, input: AddEntryInput, lookupOk: bool, id: string, createdAt: string)
    requires input.carId in s.cars && input.odometerKm < s.cars[input.carId].currentOdometerKm
    ensures var r := AddEntry(s, input, lookupOk, id, createdAt, true);
            r.store.cars[input.carId].currentOdometerKm < s.cars[input.carId].currentOdometerKm
  {
  }

  /** Likewise `recordOilChange` accepts a lower reading. */
  lemma OilChangeCanLowerOdometer(car: Car, date: string, odometerKm: int)
    requires odometerKm < car.currentOdometerKm
    ensures MaintenanceService.RecordOilChange(car, date, odometerKm).currentOdometerKm < car.currentOdometerKm
  {
  }
}
