/** The car screen's form logic: validation of a new car, the form's reset
    values, and the "next oil change" distance shown for each car. */
module CarManagementScreen {
  import opened Records
  import opened Forms
  import opened MaintenanceService

  /** Earliest model year the form accepts. */
  const EarliestYear: int := 1900

  /** The add-car form, every field as typed. */
  datatype CarForm = CarForm(
    brand: string,
    model: string,
    year: string,
    oilChangeKm: string,
    oilChangeMonths: string,
    odometer: string,
    lastOilChangeKm: string,
    lastOilChangeDate: string)

  /** The alerts a submission can raise. */
  datatype CarFormError = MissingFields | InvalidYear | InvalidOdometer

  predicate AnyFieldEmpty(f: CarForm) {
    f.brand == "" || f.model == "" || f.year == "" || f.oilChangeKm == ""
    || f.oilChangeMonths == "" || f.odometer == "" || f.lastOilChangeKm == "" || f.lastOilChangeDate == ""
  }

  /** `validateForm`: every field filled in, a year from 1900 to the
      current year, and a non-negative integer odometer. Nothing else is
      checked. */
  function ValidateCarForm(f: CarForm, currentYear: int, p: Parsers): (r: Verdict<CarFormError>)
    ensures r.Accepted? <==>
              !AnyFieldEmpty(f)
              && p.parseInt(f.year).Some? && EarliestYear <= p.parseInt(f.year).value <= currentYear
              && p.parseInt(f.odometer).Some? && p.parseInt(f.odometer).value >= 0
    ensures r == Rejected(MissingFields) <==> AnyFieldEmpty(f)
    ensures r == Rejected(InvalidYear) <==>
              !AnyFieldEmpty(f)
              && (p.parseInt(f.year).None? || p.parseInt(f.year).value < EarliestYear
                  || p.parseInt(f.year).value > currentYear)
    ensures r == Rejected(InvalidOdometer) <==>
              !AnyFieldEmpty(f)
              && p.parseInt(f.year).Some? && EarliestYear <= p.parseInt(f.year).value <= currentYear
              && (p.parseInt(f.odometer).None? || p.parseInt(f.odometer).value < 0)
  {
    if AnyFieldEmpty(f) then Rejected(MissingFields)
    else
      var year := p.parseInt(f.year);
      if year.None? || year.value < EarliestYear || year.value > currentYear then Rejected(InvalidYear)
      else
        var odometer := p.parseInt(f.odometer);
        if odometer.None? || odometer.value < 0 then Rejected(InvalidOdometer)
        else Accepted
  }

  /** `resetForm` (and the initial state): the default intervals of
      10000 km and 12 months, every other field empty. */
  function ResetCarForm(): CarForm {
    CarForm("", "", "", "10000", "12", "", "", "")
  }

  /** The distance to the next oil change shown in the car list: never
      negative; zero once the service is due. */
  function NextOilChangeDisplayKm(car: Car): (r: int)
    ensures r >= 0
    ensures r >= car.lastOilChangeKm + car.oilChangeKm - car.currentOdometerKm
    ensures r == 0 || r == car.lastOilChangeKm + car.oilChangeKm - car.currentOdometerKm
  {
    var left := car.lastOilChangeKm + car.oilChangeKm - car.currentOdometerKm;
    if left > 0 then left else 0
  }

  /** The list shows the service's distance left unless the car is overdue
      by distance, and 0 when it is. */
  lemma DisplayMatchesStatus(car: Car, nextServiceDateMs: int, nowMs: int)
    ensures var st := GetMaintenanceStatus(car, nextServiceDateMs, nowMs);
            (!st.isOverdueByKm ==> NextOilChangeDisplayKm(car) == st.kmUntilNextService)
            && (st.isOverdueByKm ==> NextOilChangeDisplayKm(car) == 0)
  {
  }

  /** A reset form keeps the default intervals and is rejected as
      incomplete until the other fields are typed in. */
  lemma ResetFormDefaults(currentYear: int, p: Parsers)
    ensures var f := ResetCarForm();
            f.oilChangeKm == "10000" && f.oilChangeMonths == "12"
            && f.brand == "" && f.model == "" && f.year == "" && f.odometer == ""
            && f.lastOilChangeKm == "" && f.lastOilChangeDate == ""
            && ValidateCarForm(f, currentYear, p) == Rejected(MissingFields)
  {
  }

  /** The intervals and the last-change reading are accepted whatever they
      hold once they are filled in: replacing them by other non-empty text
      never changes the verdict. */
  lemma IntervalsUnchecked(f: CarForm, km: string, months: string, lastKm: string, currentYear: int, p: Parsers)
    requires f.oilChangeKm != "" && f.oilChangeMonths != "" && f.lastOilChangeKm != ""
    requires km != "" && months != "" && lastKm != ""
    ensures ValidateCarForm(f.(oilChangeKm := km, oilChangeMonths := months, lastOilChangeKm := lastKm), currentYear, p)
            == ValidateCarForm(f, currentYear, p)
  {
  }
}
