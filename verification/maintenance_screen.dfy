/** The maintenance screen's logic: validation of a recorded oil change, the
    progress bar's fraction and colour, and the distance card. */
module MaintenanceScreen {
  import opened Wrappers
  import opened Records
  import opened Forms
  import opened MaintenanceService

  /** Distance left, in km, below which the bar turns amber. */
  const AmberBelowKm: int := 1000

  /** The oil-change form, both fields as typed. */
  datatype OilChangeForm = OilChangeForm(date: string, odometerKm: string)

  /** The alerts a submission can raise (no car selected raises none). */
  datatype OilChangeError = NoCarSelected | OdometerInvalid | OdometerNotAboveCurrent

  /** The result of pressing save: rejected by validation, or submitted,
      with the store after the update attempt and whether it succeeded (the
      success alert) or failed (the error alert). */
  datatype OilChangeOutcome = OilChangeRejected(reason: OilChangeError) | Submitted(store: Store, recorded: bool)

  /** The three colours of the progress bar: red, amber and green. */
  datatype BarColor = Red | Amber | Green

  /** What the distance card shows: a distance and its caption. */
  datatype DistanceCard = DistanceCard(km: int, overdue: bool)

  /** `validateForm`: needs a selected car and an odometer reading that is a
      non-negative integer strictly above the car's current reading. */
  function ValidateOilChange(currentCar: Option<Car>, form: OilChangeForm, p: Parsers): (r: Verdict<OilChangeError>)
    ensures r.Accepted? <==>
              currentCar.Some? && p.parseInt(form.odometerKm).Some?
              && p.parseInt(form.odometerKm).value >= 0
              && p.parseInt(form.odometerKm).value > currentCar.value.currentOdometerKm
    ensures r == Rejected(NoCarSelected) <==> currentCar.None?
    ensures r == Rejected(OdometerInvalid) <==>
              currentCar.Some? && (p.parseInt(form.odometerKm).None? || p.parseInt(form.odometerKm).value < 0)
  {
    if currentCar.None? then Rejected(NoCarSelected)
    else
      var odometer := p.parseInt(form.odometerKm);
      if odometer.None? || odometer.value < 0 then Rejected(OdometerInvalid)
      else if odometer.value <= currentCar.value.currentOdometerKm then Rejected(OdometerNotAboveCurrent)
      else Accepted
  }

  /** `handleSubmit`: validates, then records the oil change on the selected
      car at the typed date and reading. `updated` is whether the remote
      update succeeded; the single-row update fails for a car the table
      lacks. */
  function HandleSubmit(s: Store, currentCar: Option<Car>, form: OilChangeForm, p: Parsers, updated: bool)
    : (r: OilChangeOutcome)
    ensures r.Submitted? <==> ValidateOilChange(currentCar, form, p).Accepted?
    ensures r.OilChangeRejected? ==> ValidateOilChange(currentCar, form, p) == Rejected(r.reason)
    ensures r.Submitted? ==> (r.recorded <==> updated && currentCar.value.id in s.cars)
    ensures r.Submitted? && !r.recorded ==> r.store == s
    ensures r.Submitted? && r.recorded ==>
              r.store.entries == s.entries && r.store.cars.Keys == s.cars.Keys
              && r.store.cars[currentCar.value.id]
                 == RecordOilChange(s.cars[currentCar.value.id], form.date, p.parseInt(form.odometerKm).value)
              && forall id :: id in s.cars && id != currentCar.value.id ==> r.store.cars[id] == s.cars[id]
  {
    match ValidateOilChange(currentCar, form, p)
    case Rejected(reason) => OilChangeRejected(reason)
    case Accepted =>
      var carId := currentCar.value.id;
      Submitted(RecordOilChangeInStore(s, carId, form.date, p.parseInt(form.odometerKm).value, updated),
                updated && carId in s.cars)
  }

  /** `getProgressBarColor`: red when overdue, amber under 1000 km left,
      green otherwise. */
  function ProgressBarColor(kmLeft: int, isOverdue: bool): (r: BarColor)
    ensures r == Red <==> isOverdue
    ensures r == Amber <==> !isOverdue && kmLeft < AmberBelowKm
    ensures r == Green <==> !isOverdue && kmLeft >= AmberBelowKm
  {
    if isOverdue then Red
    else if kmLeft < AmberBelowKm then Amber
    else Green
  }

  /** `max(0, min(1, x))`. */
  function Clamp01(x: real): (r: real)
    ensures 0.0 <= r <= 1.0
    ensures 0.0 <= x <= 1.0 ==> r == x
    ensures x < 0.0 ==> r == 0.0
    ensures x > 1.0 ==> r == 1.0
  {
    if x < 0.0 then 0.0 else if x > 1.0 then 1.0 else x
  }

  /** The progress bar's fraction `(current - lastService) / interval`,
      clamped into [0, 1]. A zero interval divides by zero: a positive
      distance gives +Infinity (clamped to 1), a negative one -Infinity
      (clamped to 0), and a zero one NaN, shown as `None`. With a negative
      interval the fraction is 0 from the last service reading upwards and
      1 from an interval's length below it downwards. */
  function ProgressFraction(currentKm: int, lastServiceKm: int, intervalKm: int): (r: Option<real>)
    ensures r.Some? ==> 0.0 <= r.value <= 1.0
    ensures r.None? <==> intervalKm == 0 && currentKm == lastServiceKm
    ensures intervalKm > 0 && lastServiceKm <= currentKm <= lastServiceKm + intervalKm ==>
              r.Some? && r.value * intervalKm as real == (currentKm - lastServiceKm) as real
    ensures intervalKm > 0 && currentKm >= lastServiceKm + intervalKm ==> r == Some(1.0)
    ensures intervalKm > 0 && currentKm <= lastServiceKm ==> r == Some(0.0)
    ensures intervalKm < 0 && lastServiceKm + intervalKm <= currentKm <= lastServiceKm ==>
              r.Some? && r.value * intervalKm as real == (currentKm - lastServiceKm) as real
    ensures intervalKm == 0 && currentKm > lastServiceKm ==> r == Some(1.0)
    ensures intervalKm == 0 && currentKm < lastServiceKm ==> r == Some(0.0)
    ensures intervalKm < 0 && currentKm >= lastServiceKm ==> r == Some(0.0)
    ensures intervalKm < 0 && currentKm <= lastServiceKm + intervalKm ==> r == Some(1.0)
  {
    var driven := currentKm - lastServiceKm;
    if intervalKm == 0 then
      if driven > 0 then Some(1.0) else if driven < 0 then Some(0.0) else None
    else
      QuotientPlacement(driven as real, intervalKm as real);
      Some(Clamp01(driven as real / intervalKm as real))
  }

  /** Where `d / n` falls relative to 0 and 1, for either sign of `n`. */
  lemma QuotientPlacement(d: real, n: real)
    requires n != 0.0
    ensures (d / n) * n == d
    ensures n > 0.0 && d <= 0.0 ==> d / n <= 0.0
    ensures n > 0.0 && d >= n ==> d / n >= 1.0
    ensures n < 0.0 && d >= 0.0 ==> d / n <= 0.0
    ensures n < 0.0 && d <= n ==> d / n >= 1.0
  {
    var q := d / n;
    assert q * n == d;
    if n < 0.0 {
      assert q == (-d) / (-n);
    }
  }

  /** The distance card: the magnitude of the distance left, captioned
      OVERDUE exactly when the car is overdue by distance. */
  function DistanceCardOf(st: MaintenanceStatus): (r: DistanceCard)
    ensures r.km >= 0
    ensures r.km == st.kmUntilNextService || r.km == -st.kmUntilNextService
    ensures r.overdue <==> st.isOverdueByKm
  {
    DistanceCard(if st.kmUntilNextService < 0 then -st.kmUntilNextService else st.kmUntilNextService,
                 st.isOverdueByKm)
  }

  /** With the status the service computes, the bar is red exactly when no
      distance is left, amber exactly for 1 to 999 km left, green from
      1000 km on. */
  lemma ColorMatchesDistance(car: Car, nextServiceDateMs: int, nowMs: int)
    ensures var st := GetMaintenanceStatus(car, nextServiceDateMs, nowMs);
            var c := ProgressBarColor(st.kmUntilNextService, st.isOverdueByKm);
            (c == Red <==> st.kmUntilNextService <= 0)
            && (c == Amber <==> 0 < st.kmUntilNextService < AmberBelowKm)
            && (c == Green <==> st.kmUntilNextService >= AmberBelowKm)
  {
  }

  /** For an overdue car the card shows how far past the service it is. */
  lemma OverdueCardShowsExcess(car: Car, nextServiceDateMs: int, nowMs: int)
    ensures var st := GetMaintenanceStatus(car, nextServiceDateMs, nowMs);
            var card := DistanceCardOf(st);
            card.overdue ==> card.km == car.currentOdometerKm - (car.lastOilChangeKm + car.oilChangeKm)
  {
  }
}
