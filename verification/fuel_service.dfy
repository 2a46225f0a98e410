/** The fuel ledger of `fuelService`: consumption between two full-tank fills,
    selection of the predecessor fill, price derivation, and the insert,
    delete, update and per-car listing operations as pure transitions on a
    `Store`. Remote failures are inputs of the transitions. */
module FuelService {
  import opened Wrappers
  import opened Records

  /** What the caller hands to `addEntry`. `None` for a price or total stands
      for `undefined` or `NaN`. */
  datatype AddEntryInput = AddEntryInput(
    carId: string,
    date: string,
    stationName: string,
    liters: real,
    pricePerLiter: Option<real>,
    totalPrice: Option<real>,
    odometerKm: int,
    isFullTank: bool)

  /** The store after an insert attempt, and the inserted row (`None` when the
      database reported an error). */
  datatype AddResult = AddResult(store: Store, data: Option<FuelEntry>)

  /** The store after an update attempt, and the updated row, if any. */
  datatype UpdateResult = UpdateResult(store: Store, data: Option<FuelEntry>)

  /** A `Partial<FuelEntry>`: every present field overwrites the stored one.
      The application's record type has no full-tank column, so neither does
      a patch. */
  datatype EntryPatch = EntryPatch(
    id: Option<string>,
    carId: Option<string>,
    date: Option<string>,
    stationName: Option<string>,
    liters: Option<real>,
    pricePerLiter: Option<real>,
    totalPrice: Option<real>,
    odometerKm: Option<int>,
    consumption: Option<real>,
    createdAt: Option<string>)

  /** Litres per 100 km between a fill and an earlier one: defined only when
      there is an earlier fill, both are full-tank fills and the odometer
      advanced between them. */
  function CalculateEfficiency(current: AddEntryInput, previous: Option<FuelEntry>): (r: Option<real>)
    ensures previous.None? ==> r.None?
    ensures previous.Some? && (!current.isFullTank || !previous.value.isFullTank) ==> r.None?
    ensures r.Some? <==>
              previous.Some? && current.isFullTank && previous.value.isFullTank
              && current.odometerKm - previous.value.odometerKm > 0
    ensures r.Some? ==> IsRatePer100(r.value, current.liters, current.odometerKm - previous.value.odometerKm)
    ensures r.Some? && current.liters >= 0.0 ==> r.value >= 0.0
  {
    if previous.None? then None
    else if !current.isFullTank || !previous.value.isFullTank then None
    else
      var distance := current.odometerKm - previous.value.odometerKm;
      if distance <= 0 then None
      else Some(current.liters / distance as real * 100.0)
  }

  /** `rate` litres per 100 km over `distance` km uses up `liters`. */
  predicate IsRatePer100(rate: real, liters: real, distance: int) {
    rate * distance as real == liters * 100.0
  }

  /** `e` passes the filter of the predecessor query: same car, full tank,
      and a strictly lower odometer reading. */
  predicate IsCandidate(e: FuelEntry, carId: string, odometerKm: int) {
    e.carId == carId && e.isFullTank && e.odometerKm < odometerKm
  }

  /** The nearest full-tank predecessor by odometer: a candidate with the
      greatest odometer reading (the first such in store order on a tie). */
  function Predecessor(entries: seq<FuelEntry>, carId: string, odometerKm: int): (r: Option<FuelEntry>)
    ensures r.Some? ==> r.value in entries && IsCandidate(r.value, carId, odometerKm)
    ensures r.Some? ==>
              forall e :: e in entries && IsCandidate(e, carId, odometerKm) ==> e.odometerKm <= r.value.odometerKm
    ensures r.None? <==> forall e :: e in entries ==> !IsCandidate(e, carId, odometerKm)
  {
    if |entries| == 0 then None
    else
      var rest := Predecessor(entries[1..], carId, odometerKm);
      var head := entries[0];
      assert forall e :: e in entries ==> e == head || e in entries[1..];
      if IsCandidate(head, carId, odometerKm) && (rest.None? || head.odometerKm >= rest.value.odometerKm)
      then Some(head)
      else rest
  }

  /** The consumption stored with a new entry: computed against the
      predecessor for a full-tank fill, null otherwise. */
  function StoredConsumption(entries: seq<FuelEntry>, input: AddEntryInput): (r: Option<real>)
    ensures !input.isFullTank ==> r.None?
    ensures r.Some? ==>
              var p := Predecessor(entries, input.carId, input.odometerKm);
              p.Some? && r == CalculateEfficiency(input, p)
  {
    if input.isFullTank
    then CalculateEfficiency(input, Predecessor(entries, input.carId, input.odometerKm))
    else None
  }

  /** `entry.price_per_liter || entry.total_price / entry.liters`: a given,
      non-zero price is kept; otherwise the price is derived from the total,
      and is null when that quotient is not a finite number. */
  function DerivedPricePerLiter(input: AddEntryInput): (r: Option<real>)
    ensures input.pricePerLiter.Some? && input.pricePerLiter.value != 0.0 ==> r == input.pricePerLiter
    ensures (input.pricePerLiter.None? || input.pricePerLiter.value == 0.0) ==>
              (r.Some? <==> input.totalPrice.Some? && input.liters != 0.0)
    ensures (input.pricePerLiter.None? || input.pricePerLiter.value == 0.0) && r.Some? ==>
              r.value * input.liters == input.totalPrice.value
  {
    if input.pricePerLiter.Some? && input.pricePerLiter.value != 0.0 then input.pricePerLiter
    else if input.totalPrice.Some? && input.liters != 0.0 then Some(input.totalPrice.value / input.liters)
    else None
  }

  /** The row `addEntry` inserts, with database-assigned `id` and `createdAt`.
      Every field of the input is copied; the price is the derived one. The
      predecessor lookup's own error is discarded: when `lookupOk` is false
      it returned no row, and the fill stores no consumption. */
  function NewEntry(entries: seq<FuelEntry>, input: AddEntryInput, lookupOk: bool, id: string, createdAt: string): (r: FuelEntry)
    ensures r.id == id && r.createdAt == createdAt
    ensures r.carId == input.carId && r.date == input.date && r.stationName == input.stationName
    ensures r.liters == input.liters && r.totalPrice == input.totalPrice
    ensures r.odometerKm == input.odometerKm && r.isFullTank == input.isFullTank
    ensures r.pricePerLiter == DerivedPricePerLiter(input)
    ensures lookupOk ==> r.consumption == StoredConsumption(entries, input)
    ensures !lookupOk ==> r.consumption.None?
  {
    FuelEntry(id, input.carId, input.date, input.stationName, input.liters,
              DerivedPricePerLiter(input), input.totalPrice, input.odometerKm,
              input.isFullTank, if lookupOk then StoredConsumption(entries, input) else None, createdAt)
  }

  /** `addEntry`: looks up the predecessor before inserting, inserts the new
      row when the database accepts it, and then sets the owning car's
      odometer to the entry's reading, whatever it was before. */
  function AddEntry(s: Store, input: AddEntryInput, lookupOk: bool, id: string, createdAt: string, inserted: bool): (r: AddResult)
    ensures !inserted ==> r.store == s && r.data.None?
    ensures inserted ==>
              r.data == Some(NewEntry(s.entries, input, lookupOk, id, createdAt))
              && r.store.entries == s.entries + [r.data.value]
    ensures inserted && input.carId in s.cars ==>
              input.carId in r.store.cars
              && r.store.cars[input.carId] == s.cars[input.carId].(currentOdometerKm := input.odometerKm)
    ensures r.store.cars.Keys == s.cars.Keys
    ensures forall id' :: id' in s.cars && id' != input.carId ==> r.store.cars[id'] == s.cars[id']
  {
    if !inserted then AddResult(s, None)
    else
      var entry := NewEntry(s.entries, input, lookupOk, id, createdAt);
      var cars := if input.carId in s.cars
                  then s.cars[input.carId := s.cars[input.carId].(currentOdometerKm := input.odometerKm)]
                  else s.cars;
      AddResult(Store(s.entries + [entry], cars), Some(entry))
  }

  /** The entries of `entries` whose id differs from `id`, in their order. */
  function WithoutId(entries: seq<FuelEntry>, id: string): (r: seq<FuelEntry>)
    ensures forall e :: e in r <==> e in entries && e.id != id
    ensures |r| <= |entries|
  {
    if |entries| == 0 then []
    else if entries[0].id == id then WithoutId(entries[1..], id)
    else [entries[0]] + WithoutId(entries[1..], id)
  }

  /** `deleteEntry`: when the database accepts the delete, removes every
      entry carrying `id` and nothing else; the remaining entries keep their
      stored consumption, and no car changes. A failed delete changes
      nothing. */
  function DeleteEntry(s: Store, id: string, deleted: bool): (r: Store)
    ensures deleted ==> forall e :: e in r.entries <==> e in s.entries && e.id != id
    ensures !deleted ==> r == s
    ensures r.cars == s.cars
  {
    if deleted then Store(WithoutId(s.entries, id), s.cars) else s
  }

  /** Overwrites the fields a patch carries. */
  function ApplyPatch(e: FuelEntry, p: EntryPatch): FuelEntry {
    FuelEntry(
      p.id.GetOr(e.id),
      p.carId.GetOr(e.carId),
      p.date.GetOr(e.date),
      p.stationName.GetOr(e.stationName),
      p.liters.GetOr(e.liters),
      if p.pricePerLiter.Some? then p.pricePerLiter else e.pricePerLiter,
      if p.totalPrice.Some? then p.totalPrice else e.totalPrice,
      p.odometerKm.GetOr(e.odometerKm),
      e.isFullTank,
      if p.consumption.Some? then p.consumption else e.consumption,
      p.createdAt.GetOr(e.createdAt))
  }

  /** The entries with `id` patched, the others untouched. */
  function PatchWhere(entries: seq<FuelEntry>, id: string, p: EntryPatch): (r: seq<FuelEntry>)
    ensures |r| == |entries|
    ensures forall i :: 0 <= i < |entries| ==>
              r[i] == (if entries[i].id == id then ApplyPatch(entries[i], p) else entries[i])
  {
    if |entries| == 0 then []
    else [if entries[0].id == id then ApplyPatch(entries[0], p) else entries[0]] + PatchWhere(entries[1..], id, p)
  }

  /** The first entry carrying `id`, if any. */
  function FindById(entries: seq<FuelEntry>, id: string): (r: Option<nat>)
    ensures r.Some? ==> r.value < |entries| && entries[r.value].id == id
                        && forall j :: 0 <= j < r.value ==> entries[j].id != id
    ensures r.None? ==> forall j :: 0 <= j < |entries| ==> entries[j].id != id
  {
    if |entries| == 0 then None
    else if entries[0].id == id then Some(0)
    else match FindById(entries[1..], id)
      case None => None
      case Some(k) => Some(k + 1)
  }

  /** `updateEntry`: when the database accepts the update, applies the patch
      verbatim to the entries with `id`. The stored consumption is not
      recomputed and no car changes; the returned row is the patched entry,
      or nothing when no entry has that id. A failed update changes nothing
      and returns no row. */
  function UpdateEntry(s: Store, id: string, p: EntryPatch, updated: bool): (r: UpdateResult)
    ensures !updated ==> r.store == s && r.data.None?
    ensures r.store.cars == s.cars
    ensures |r.store.entries| == |s.entries|
    ensures updated ==>
              forall i :: 0 <= i < |s.entries| && s.entries[i].id != id ==> r.store.entries[i] == s.entries[i]
    ensures updated ==>
              forall i :: 0 <= i < |s.entries| && s.entries[i].id == id ==>
                r.store.entries[i] == ApplyPatch(s.entries[i], p)
    ensures updated ==> (r.data.Some? <==> exists i :: 0 <= i < |s.entries| && s.entries[i].id == id)
    ensures r.data.Some? ==>
              exists i :: 0 <= i < |s.entries| && s.entries[i].id == id
                          && r.data.value == ApplyPatch(s.entries[i], p) && r.store.entries[i] == r.data.value
  {
    if !updated then UpdateResult(s, None)
    else
      var entries := PatchWhere(s.entries, id, p);
      match FindById(s.entries, id)
      case None => UpdateResult(Store(entries, s.cars), None)
      case Some(k) => UpdateResult(Store(entries, s.cars), Some(entries[k]))
  }

  /** `getEntriesForCar`: the car's entries, in the order the store lists them. */
  function EntriesForCar(entries: seq<FuelEntry>, carId: string): (r: seq<FuelEntry>)
    ensures forall e :: e in r <==> e in entries && e.carId == carId
    ensures |r| <= |entries|
  {
    if |entries| == 0 then []
    else if entries[0].carId == carId then [entries[0]] + EntriesForCar(entries[1..], carId)
    else EntriesForCar(entries[1..], carId)
  }
}

/** Properties of the fuel ledger that relate several operations. */
module FuelLedgerProperties {
  import opened Wrappers
  import opened Records
  import opened FuelService

  /** A stored consumption exists exactly when the new fill is a full-tank
      fill and some full-tank predecessor exists: the distance guard of
      `CalculateEfficiency` can never fire on the selected predecessor. */
  lemma ConsumptionPresentIff(entries: seq<FuelEntry>, input: AddEntryInput)
    ensures StoredConsumption(entries, input).Some? <==>
              input.isFullTank && exists e :: e in entries && IsCandidate(e, input.carId, input.odometerKm)
  {
    var p := Predecessor(entries, input.carId, input.odometerKm);
    if input.isFullTank && p.Some? {
      assert p.value.odometerKm < input.odometerKm;
      assert CalculateEfficiency(input, p).Some?;
    }
  }

  /** The value stored for a full-tank fill with a predecessor is the litres
      per 100 km over the distance from that predecessor. */
  lemma ConsumptionValue(entries: seq<FuelEntry>, input: AddEntryInput)
    requires input.isFullTank
    requires exists e :: e in entries && IsCandidate(e, input.carId, input.odometerKm)
    ensures Predecessor(entries, input.carId, input.odometerKm).Some?
    ensures StoredConsumption(entries, input).Some?
    ensures IsRatePer100(StoredConsumption(entries, input).value, input.liters,
                         input.odometerKm - Predecessor(entries, input.carId, input.odometerKm).value.odometerKm)
  {
    var w :| w in entries && IsCandidate(w, input.carId, input.odometerKm);
    var p := Predecessor(entries, input.carId, input.odometerKm);
    assert p.Some?;
    assert IsCandidate(p.value, input.carId, input.odometerKm);
    assert StoredConsumption(entries, input) == CalculateEfficiency(input, p);
  }

  /** The two full-tank fills of the worked example: 45 litres over 500 km
      give 9 litres per 100 km, and a partial second fill gives nothing. */
  lemma WorkedExample(a: FuelEntry)
    requires a.carId == "car" && a.odometerKm == 10000 && a.isFullTank
    ensures var b := AddEntryInput("car", "d", "s", 45.0, None, None, 10500, true);
            StoredConsumption([a], b) == Some(9.0)
    ensures var b := AddEntryInput("car", "d", "s", 45.0, None, None, 10500, false);
            StoredConsumption([a], b) == None
  {
    var b := AddEntryInput("car", "d", "s", 45.0, None, None, 10500, true);
    assert Predecessor([a], "car", 10500) == Some(a);
    assert CalculateEfficiency(b, Some(a)) == Some(9.0);
  }

  /** The predecessor query only looks at the car's own entries: selecting
      from the whole table or from the car's listing gives the same row. */
  lemma {:induction false} PredecessorIgnoresOtherCars(entries: seq<FuelEntry>, carId: string, odometerKm: int)
    ensures Predecessor(entries, carId, odometerKm) == Predecessor(EntriesForCar(entries, carId), carId, odometerKm)
  {
    if |entries| > 0 {
      PredecessorIgnoresOtherCars(entries[1..], carId, odometerKm);
      if entries[0].carId == carId {
        assert EntriesForCar(entries, carId)[1..] == EntriesForCar(entries[1..], carId);
      }
    }
  }

  lemma {:induction false} WithoutIdAppend(a: seq<FuelEntry>, b: seq<FuelEntry>, id: string)
    ensures WithoutId(a + b, id) == WithoutId(a, id) + WithoutId(b, id)
  {
    if |a| == 0 {
      assert a + b == b;
    } else {
      assert (a + b)[1..] == a[1..] + b;
      WithoutIdAppend(a[1..], b, id);
    }
  }

  /** Removing an id no entry carries leaves the entries as they are. */
  lemma {:induction false} WithoutAbsentId(entries: seq<FuelEntry>, id: string)
    requires forall e :: e in entries ==> e.id != id
    ensures WithoutId(entries, id) == entries
  {
    if |entries| > 0 {
      WithoutAbsentId(entries[1..], id);
      assert [entries[0]] + entries[1..] == entries;
    }
  }

  /** Deleting twice is deleting once. */
  lemma DeleteIdempotent(s: Store, id: string)
    ensures DeleteEntry(DeleteEntry(s, id, true), id, true) == DeleteEntry(s, id, true)
  {
    WithoutAbsentId(DeleteEntry(s, id, true).entries, id);
  }

  /** Deleting the row an insert just created under a fresh id restores the
      entries (the car's odometer is not restored: deletion touches no car). */
  lemma AddThenDelete(s: Store, input: AddEntryInput, lookupOk: bool, id: string, createdAt: string)
    requires forall e :: e in s.entries ==> e.id != id
    ensures var added := AddEntry(s, input, lookupOk, id, createdAt, true).store;
            DeleteEntry(added, id, true).entries == s.entries
            && DeleteEntry(added, id, true).cars == added.cars
  {
    var entry := NewEntry(s.entries, input, lookupOk, id, createdAt);
    WithoutIdAppend(s.entries, [entry], id);
    WithoutAbsentId(s.entries, id);
  }

  lemma {:induction false} EntriesForCarAppend(a: seq<FuelEntry>, b: seq<FuelEntry>, carId: string)
    ensures EntriesForCar(a + b, carId) == EntriesForCar(a, carId) + EntriesForCar(b, carId)
  {
    if |a| == 0 {
      assert a + b == b;
    } else {
      assert (a + b)[1..] == a[1..] + b;
      EntriesForCarAppend(a[1..], b, carId);
    }
  }

  /** After an insert the car's listing is the old listing followed by the
      new row; other cars' listings do not change. */
  lemma AddEntryListing(s: Store, input: AddEntryInput, lookupOk: bool, id: string, createdAt: string, carId: string)
    ensures var r := AddEntry(s, input, lookupOk, id, createdAt, true);
            EntriesForCar(r.store.entries, carId) ==
              EntriesForCar(s.entries, carId) + (if carId == input.carId then [r.data.value] else [])
  {
    var r := AddEntry(s, input, lookupOk, id, createdAt, true);
    EntriesForCarAppend(s.entries, [r.data.value], carId);
  }

  /** The patch that carries no field. */
  const EmptyPatch := EntryPatch(None, None, None, None, None, None, None, None, None, None)

  /** An update with an empty patch leaves the store as it was, and returns
      the stored row when the id exists. */
  lemma EmptyPatchChangesNothing(s: Store, id: string)
    ensures var r := UpdateEntry(s, id, EmptyPatch, true);
            r.store == s && (r.data.Some? ==> r.data.value in s.entries)
  {
    var r := UpdateEntry(s, id, EmptyPatch, true);
    forall i | 0 <= i < |s.entries|
      ensures r.store.entries[i] == s.entries[i]
    {
      assert ApplyPatch(s.entries[i], EmptyPatch) == s.entries[i];
    }
    assert r.store.entries == s.entries;
  }
}
