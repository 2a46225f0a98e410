/** Oil-change status of `maintenanceService`. Timestamps are integer
    milliseconds; the next service date (calendar-month arithmetic of an
    external date library) and the current time are inputs. */
module MaintenanceService {
  import opened Records

  /** Milliseconds in a day. */
  const MsPerDay: int := 1000 * 60 * 60 * 24

  /** The status snapshot the screens display. `lastServiceDate` is the
      stored date string; `nextServiceDateMs` is a timestamp. */
  datatype MaintenanceStatus = MaintenanceStatus(
    kmUntilNextService: int,
    daysUntilNextService: int,
    isOverdueByKm: bool,
    isOverdueByTime: bool,
    lastServiceDate: string,
    lastServiceKm: int,
    nextServiceDateMs: int,
    nextServiceKm: int)

  /** `Math.ceil(a / b)` for integers and a positive divisor: the least
      integer not below the exact quotient. */
  function CeilDiv(a: int, b: int): (r: int)
    requires b > 0
    ensures (r - 1) * b < a <= r * b
  {
    -((-a) / b)
  }

  /** `getMaintenanceStatus(car)` against the given next service date and
      clock reading. */
  function GetMaintenanceStatus(car: Car, nextServiceDateMs: int, nowMs: int): (r: MaintenanceStatus)
    ensures r.nextServiceKm == car.lastOilChangeKm + car.oilChangeKm
    ensures r.kmUntilNextService + car.currentOdometerKm == r.nextServiceKm
    ensures r.isOverdueByKm <==> car.currentOdometerKm >= car.lastOilChangeKm + car.oilChangeKm
    ensures r.isOverdueByTime <==> nextServiceDateMs < nowMs
    ensures (r.daysUntilNextService - 1) * MsPerDay < nextServiceDateMs - nowMs <= r.daysUntilNextService * MsPerDay
    ensures r.lastServiceKm == car.lastOilChangeKm && r.lastServiceDate == car.lastOilChangeDate
    ensures r.nextServiceDateMs == nextServiceDateMs
  {
    var nextServiceKm := car.lastOilChangeKm + car.oilChangeKm;
    var kmUntilNextService := nextServiceKm - car.currentOdometerKm;
    MaintenanceStatus(
      kmUntilNextService,
      CeilDiv(nextServiceDateMs - nowMs, MsPerDay),
      kmUntilNextService <= 0,
      nextServiceDateMs < nowMs,
      car.lastOilChangeDate,
      car.lastOilChangeKm,
      nextServiceDateMs,
      nextServiceKm)
  }

  /** `recordOilChange` as a record update: the service date, the service
      reading and the current reading are set; no check that the reading
      advances. */
  function RecordOilChange(car: Car, date: string, odometerKm: int): (r: Car)
    ensures r.lastOilChangeDate == date
    ensures r.lastOilChangeKm == odometerKm && r.currentOdometerKm == odometerKm
    ensures r.id == car.id && r.userId == car.userId && r.brand == car.brand && r.model == car.model
    ensures r.year == car.year && r.oilChangeKm == car.oilChangeKm && r.oilChangeMonths == car.oilChangeMonths
    ensures r.createdAt == car.createdAt
  {
    car.(lastOilChangeDate := date, lastOilChangeKm := odometerKm, currentOdometerKm := odometerKm)
  }

  /** The update of the `cars` table by id. `updated` is whether the remote
      update reported success; a failed update, or a car the table lacks
      (the update matches no row), leaves the store as it is. */
  function RecordOilChangeInStore(s: Store, carId: string, date: string, odometerKm: int, updated: bool): (r: Store)
    ensures r.entries == s.entries && r.cars.Keys == s.cars.Keys
    ensures updated && carId in s.cars ==> r.cars[carId] == RecordOilChange(s.cars[carId], date, odometerKm)
    ensures !updated || carId !in s.cars ==> r == s
    ensures forall id :: id in s.cars && id != carId ==> r.cars[id] == s.cars[id]
  {
    if updated && carId in s.cars then
      Store(s.entries, s.cars[carId := RecordOilChange(s.cars[carId], date, odometerKm)])
    else s
  }

  /** The days left are positive exactly when the next service lies in the
      future; so a car overdue by time never shows a positive day count. */
  lemma DaysPositiveIffFuture(car: Car, nextServiceDateMs: int, nowMs: int)
    ensures var st := GetMaintenanceStatus(car, nextServiceDateMs, nowMs);
            (st.daysUntilNextService > 0 <==> nextServiceDateMs > nowMs)
            && (st.isOverdueByTime ==> st.daysUntilNextService <= 0)
  {
    var st := GetMaintenanceStatus(car, nextServiceDateMs, nowMs);
    var d := st.daysUntilNextService;
    if nextServiceDateMs > nowMs {
      assert 0 < d * MsPerDay;
    } else {
      assert (d - 1) * MsPerDay < 0;
    }
  }

  /** Straight after an oil change the distance left is the full interval,
      so with a positive interval the car is not overdue by distance. */
  lemma FreshOilChangeNotOverdue(car: Car, date: string, odometerKm: int, nextServiceDateMs: int, nowMs: int)
    ensures var st := GetMaintenanceStatus(RecordOilChange(car, date, odometerKm), nextServiceDateMs, nowMs);
            st.kmUntilNextService == car.oilChangeKm
            && (car.oilChangeKm > 0 ==> !st.isOverdueByKm)
  {
  }

  /** Two worked readings: 16 500 km against a service at 10 000 km with a
      10 000 km interval leaves 3 500 km; 21 000 km is 1 000 km overdue. */
  lemma WorkedExamples(car: Car, nextServiceDateMs: int, nowMs: int)
    requires car.lastOilChangeKm == 10000 && car.oilChangeKm == 10000
    ensures var st := GetMaintenanceStatus(car.(currentOdometerKm := 16500), nextServiceDateMs, nowMs);
            st.kmUntilNextService == 3500 && !st.isOverdueByKm
    ensures var st := GetMaintenanceStatus(car.(currentOdometerKm := 21000), nextServiceDateMs, nowMs);
            st.kmUntilNextService == -1000 && st.isOverdueByKm
  {
  }
}
