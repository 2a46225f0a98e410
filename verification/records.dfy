/** The database rows the core works on (`cars` and `fuel_entries`), and an
    abstract store holding both tables. */
module Records {
  import opened Wrappers

  /** A row of the `cars` table. Kilometre readings and intervals are integers;
      dates are kept as the strings the database returns. */
  datatype Car = Car(
    id: string,
    userId: string,
    brand: string,
    model: string,
    year: int,
    oilChangeKm: int,
    oilChangeMonths: int,
    currentOdometerKm: int,
    lastOilChangeKm: int,
    lastOilChangeDate: string,
    createdAt: string)

  /** A row of the `fuel_entries` table. `isFullTank` is the row's full-tank
      column; the application's own record type has no such field. A `None`
      price or total is a database null (the value a non-finite number
      becomes when it is serialised); a `None` consumption was not computable. */
  datatype FuelEntry = FuelEntry(
    id: string,
    carId: string,
    date: string,
    stationName: string,
    liters: real,
    pricePerLiter: Option<real>,
    totalPrice: Option<real>,
    odometerKm: int,
    isFullTank: bool,
    consumption: Option<real>,
    createdAt: string)

  /** Both tables: fuel entries in their stored order, cars by id. */
  datatype Store = Store(entries: seq<FuelEntry>, cars: map<string, Car>)

  /** Every car is filed under its own id. */
  predicate CarsKeyedById(s: Store) {
    forall k :: k in s.cars ==> s.cars[k].id == k
  }
}
